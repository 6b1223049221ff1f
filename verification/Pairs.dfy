/**
 The pairs table (bridge/dbstore/pairs.py) and the Telegram id shapes it copes with
 (bridge/tguser/types_map.py): a channel's bare id, or the "marked" id events carry.
 */
module Pairs {
  import opened Sequences
  import opened Messages
  import opened MessageMap

  datatype Mode = Tg2Bale | Bale2Tg | Both

  datatype Pair = Pair(id: int, tgChat: int, baleChat: string, baleUsername: string, mode: Mode)

  const MARK := 1000000000000

  /** Largest bare id the marked shape has room for. */
  const MAX_BARE := 9999999999

  /** `bare_chat_id`; `None` is an id that is not a number. */
  function Bare(chatId: Option<int>): int
  {
    match chatId
    case None => 0
    case Some(n) => if -MARK - MAX_BARE <= n <= -MARK then -(n + MARK) else n
  }

  /** `_tg_id_forms` */
  function Forms(chatId: Option<int>): (int, int)
  {
    var bare := Bare(chatId);
    if bare > 0 then (bare, -MARK - bare) else (bare, bare)
  }

  predicate ToBale(pair: Pair)
  {
    pair.mode == Tg2Bale || pair.mode == Both
  }

  predicate ToTg(pair: Pair)
  {
    pair.mode == Bale2Tg || pair.mode == Both
  }

  predicate MatchesTg(pair: Pair, chatId: Option<int>)
  {
    pair.tgChat == Forms(chatId).0 || pair.tgChat == Forms(chatId).1
  }

  /** `lower()` of the database: ASCII letters only. */
  function Lower(s: string): (r: string)
    ensures |r| == |s|
  {
    if s == "" then ""
    else
      var c := s[|s| - 1];
      Lower(s[..|s| - 1]) + [if 'A' <= c <= 'Z' then (c as int + 32) as char else c]
  }

  /** `lstrip("@")` */
  function WithoutAts(s: string): string
  {
    if s != "" && s[0] == '@' then WithoutAts(s[1..]) else s
  }

  predicate MatchesBale(pair: Pair, chat: string, username: Option<string>)
  {
    pair.baleChat == chat || MatchesUsername(pair, username)
  }

  predicate MatchesUsername(pair: Pair, username: Option<string>)
  {
    && username.Some? && username.value != ""
    && pair.baleUsername != "" && Lower(pair.baleUsername) == Lower(WithoutAts(username.value))
  }

  /** `for_tg` */
  function ForTg(pairs: seq<Pair>, chatId: Option<int>): seq<Pair>
  {
    if pairs == [] then []
    else
      var init, pair := ForTg(pairs[..|pairs| - 1], chatId), pairs[|pairs| - 1];
      if MatchesTg(pair, chatId) && ToBale(pair) then init + [pair] else init
  }

  /** `for_bale` */
  function ForBale(pairs: seq<Pair>, chat: string, username: Option<string>): seq<Pair>
  {
    if pairs == [] then []
    else
      var init, pair := ForBale(pairs[..|pairs| - 1], chat, username), pairs[|pairs| - 1];
      if MatchesBale(pair, chat, username) && ToTg(pair) then init + [pair] else init
  }

  function WithoutId(pairs: seq<Pair>, id: int): seq<Pair>
  {
    if pairs == [] then []
    else
      var init, pair := WithoutId(pairs[..|pairs| - 1], id), pairs[|pairs| - 1];
      if pair.id == id then init else init + [pair]
  }

  function WithMode(pairs: seq<Pair>, id: int, mode: Mode): (r: seq<Pair>)
    ensures |r| == |pairs|
  {
    if pairs == [] then []
    else
      var pair := pairs[|pairs| - 1];
      WithMode(pairs[..|pairs| - 1], id, mode) + [if pair.id == id then pair.(mode := mode) else pair]
  }

  predicate HasId(pairs: seq<Pair>, id: int)
  {
    exists i :: 0 <= i < |pairs| && pairs[i].id == id
  }

  class PairsEngine {
    const links: MapEngine
    var pairs: seq<Pair>
    var nextId: int

    constructor (links: MapEngine)
      ensures pairs == [] && nextId == 1 && this.links == links
    {
      this.links := links;
      pairs, nextId := [], 1;
    }

    method Add(tgChat: Option<int>, baleChat: string, baleUsername: string, mode: Mode) returns (id: int)
      modifies this
      ensures id == old(nextId) && nextId == id + 1
      ensures pairs == old(pairs) + [Pair(id, Bare(tgChat), baleChat, baleUsername, mode)]
    {
      id := nextId;
      pairs := pairs + [Pair(id, Bare(tgChat), baleChat, baleUsername, mode)];
      nextId := nextId + 1;
    }

    /** Removes the pair and all its message rows. */
    method Remove(id: int) returns (removed: bool)
      modifies this, links
      ensures removed == HasId(old(pairs), id)
      ensures pairs == WithoutId(old(pairs), id) && links.rows == WithoutPair(old(links.rows), id)
      ensures nextId == old(nextId) && links.nextId == old(links.nextId)
    {
      removed := HasId(pairs, id);
      pairs := WithoutId(pairs, id);
      links.RemovePair(id);
    }

    method SetMode(id: int, mode: Mode) returns (changed: bool)
      modifies this
      ensures changed == HasId(old(pairs), id)
      ensures pairs == WithMode(old(pairs), id, mode) && nextId == old(nextId)
    {
      changed := HasId(pairs, id);
      pairs := WithMode(pairs, id, mode);
    }
  }

  // ------------------------------------------------ Telegram ids

  /** Normalising an id twice is normalising it once. */
  lemma {:induction false} BareIdempotent(chatId: Option<int>)
    ensures Bare(Some(Bare(chatId))) == Bare(chatId)
  {
  }

  lemma {:induction false} ForTgExact(pairs: seq<Pair>, chatId: Option<int>, pair: Pair)
    ensures pair in ForTg(pairs, chatId) <==> pair in pairs && MatchesTg(pair, chatId) && ToBale(pair)
  {
    if pairs != [] {
      ForTgExact(pairs[..|pairs| - 1], chatId, pair);
      assert pairs == pairs[..|pairs| - 1] + [pairs[|pairs| - 1]];
    }
  }

  /**
   The modes, by name: a pair found for a Telegram chat is "tg2bale" or "both", one found for
   a Bale chat is "bale2tg" or "both", and such pairs of the chat are all found.
   */
  lemma {:induction false} ModesDirect(
      pairs: seq<Pair>, pair: Pair, tgChat: Option<int>, chat: string, username: Option<string>)
    requires pair in pairs
    ensures MatchesTg(pair, tgChat) ==> (pair in ForTg(pairs, tgChat) <==> pair.mode != Bale2Tg)
    ensures MatchesBale(pair, chat, username) ==> (pair in ForBale(pairs, chat, username) <==> pair.mode != Tg2Bale)
    ensures pair in ForTg(pairs, tgChat) && pair in ForBale(pairs, chat, username) ==> pair.mode == Both
  {
    ForTgExact(pairs, tgChat, pair);
    ForBaleExact(pairs, chat, username, pair);
  }

  /** Pairs are served in the order of the table. */
  lemma {:induction false} PairsInTableOrder(
      pairs: seq<Pair>, tgChat: Option<int>, chat: string, username: Option<string>)
    ensures Subsequence(ForTg(pairs, tgChat), pairs) && Subsequence(ForBale(pairs, chat, username), pairs)
  {
    hide Subsequence;
    hide MatchesTg;
    hide MatchesBale;
    if pairs == [] {
      NothingIsSubsequence(pairs);
    } else {
      var init, pair := pairs[..|pairs| - 1], pairs[|pairs| - 1];
      PairsInTableOrder(init, tgChat, chat, username);
      SubsequenceTakes(ForTg(init, tgChat), init, pair);
      SubsequenceTakes(ForBale(init, chat, username), init, pair);
      assert pairs == init + [pair];
    }
  }

  /**
   A pair added under `y` is found for `x` exactly when its mode allows it and the two are
   the same chat, or `x` is too long for the marked shape and `y` is what it would be marked.
   */
  lemma {:induction false} AddedPairFound(pairs: seq<Pair>, pair: Pair, x: Option<int>, y: Option<int>)
    requires pair in pairs && pair.tgChat == Bare(y)
    ensures pair in ForTg(pairs, x) <==>
            ToBale(pair) && (Bare(x) == Bare(y) || (Bare(x) > MAX_BARE && Bare(y) == -MARK - Bare(x)))
  {
    ForTgExact(pairs, x, pair);
  }

  /** The lookup confuses no two chats, whatever was added, exactly for ids that fit the marked shape. */
  lemma {:induction false} LookupSeparatesChats(x: Option<int>)
    ensures (forall y :: (Bare(y) == Forms(x).0 || Bare(y) == Forms(x).1) <==> Bare(x) == Bare(y)) <==>
            Bare(x) <= MAX_BARE
  {
    if Bare(x) > MAX_BARE {
      var y := Some(-MARK - Bare(x));
      assert Bare(y) == Forms(x).1 && Bare(y) != Bare(x);
    }
  }

  /** A concrete pair of chats one lookup takes for the same. */
  lemma {:induction false} LongIdsCollide()
    ensures var pair := Pair(1, Bare(Some(-1010000000000)), "5", "", Both);
            pair in ForTg([pair], Some(10000000000)) && Bare(Some(-1010000000000)) != Bare(Some(10000000000))
  {
    var pair := Pair(1, Bare(Some(-1010000000000)), "5", "", Both);
    AddedPairFound([pair], pair, Some(10000000000), Some(-1010000000000));
  }

  /**
   Rows stored before ids were normalised are found too: whichever shape `stored` has, it
   is matched exactly by the ids of the same chat, for every chat id but 0 and the too long ones.
   */
  lemma {:induction false} BothShapesFound(x: Option<int>)
    ensures (forall stored :: (stored == Forms(x).0 || stored == Forms(x).1) <==> Bare(Some(stored)) == Bare(x))
            <==> Bare(x) != 0 && Bare(x) <= MAX_BARE
  {
    if Bare(x) == 0 {
      assert Bare(Some(-MARK)) == 0;
    } else if Bare(x) > MAX_BARE {
      var stored := -MARK - Bare(x);
      assert stored == Forms(x).1 && Bare(Some(stored)) != Bare(x);
    }
  }

  // ------------------------------------------------ Bale chats

  lemma {:induction false} ForBaleExact(pairs: seq<Pair>, chat: string, username: Option<string>, pair: Pair)
    ensures pair in ForBale(pairs, chat, username) <==>
            pair in pairs && MatchesBale(pair, chat, username) && ToTg(pair)
  {
    if pairs != [] {
      ForBaleExact(pairs[..|pairs| - 1], chat, username, pair);
      assert pairs == pairs[..|pairs| - 1] + [pairs[|pairs| - 1]];
    }
  }

  const UPPER := "ABCDEFGHIJKLMNOPQRSTUVWXYZ"
  const LOWER := "abcdefghijklmnopqrstuvwxyz"

  /** Each capital letter becomes its small one, and no other character changes. */
  lemma {:induction false} LowerInWords(s: string, i: nat, k: nat)
    requires i < |s| && k < 26
    ensures |UPPER| == |LOWER| == 26
    ensures s[i] == UPPER[k] ==> Lower(s)[i] == LOWER[k]
    ensures !('A' <= s[i] <= 'Z') ==> Lower(s)[i] == s[i]
  {
    hide UPPER;
    hide LOWER;
    LettersInOrder(k);
    if i < |s| - 1 {
      LowerInWords(s[..|s| - 1], i, k);
    }
  }

  lemma {:induction false} LettersInOrder(k: nat)
    requires k < 26
    ensures |UPPER| == |LOWER| == 26 && UPPER[k] as int == 'A' as int + k && LOWER[k] as int == 'a' as int + k
  {
  }

  /** Without a name, on either side, only the id of the chat counts; and a name other than the pair's is of no use. */
  lemma {:induction false} NamelessById(pairs: seq<Pair>, chat: string, username: Option<string>, pair: Pair)
    requires pair in ForBale(pairs, chat, username) && pair.baleChat != chat
    ensures pair.baleUsername != "" && username.Some? && username.value != ""
    ensures exists name :: WithoutAts(username.value) == name && Lower(name) == Lower(pair.baleUsername) && name != ""
  {
    ForBaleExact(pairs, chat, username, pair);
    var name := WithoutAts(username.value);
    assert |Lower(name)| == |name| && |Lower(pair.baleUsername)| == |pair.baleUsername|;
  }

  /** The lookup by username ignores leading at-signs and the case of letters. */
  lemma {:induction false} UsernameLookupIgnoresCaseAndAt(pairs: seq<Pair>, chat: string, u: string, v: string)
    requires Lower(WithoutAts(u)) == Lower(WithoutAts(v))
    ensures ForBale(pairs, chat, Some(u)) == ForBale(pairs, chat, Some(v))
    ensures ForBale(pairs, chat, Some("@" + u)) == ForBale(pairs, chat, Some(u))
  {
    if pairs != [] {
      UsernameLookupIgnoresCaseAndAt(pairs[..|pairs| - 1], chat, u, v);
    }
  }

  // ------------------------------------------------ changing a mode

  lemma {:induction false} WithModeExact(pairs: seq<Pair>, id: int, mode: Mode, pair: Pair)
    ensures pair in WithMode(pairs, id, mode) <==>
            if pair.id == id then pair.mode == mode && exists m :: pair.(mode := m) in pairs else pair in pairs
  {
    if pairs != [] {
      var init, last := pairs[..|pairs| - 1], pairs[|pairs| - 1];
      WithModeExact(init, id, mode, pair);
      assert pairs == init + [last];
      if pair.id == id && pair.mode == mode {
        assert pair.(mode := last.mode) == last <==> pair == last.(mode := mode);
        if m :| pair.(mode := m) in pairs {
          assert pair.(mode := m) == last ==> m == last.mode;
        }
      }
    }
  }

  /** Setting the mode of a pair directs that pair, and leaves who finds any other as it was. */
  lemma {:induction false} SetModeDirects(
      pairs: seq<Pair>, id: int, mode: Mode, pair: Pair, tgChat: Option<int>, chat: string, username: Option<string>)
    ensures var now := WithMode(pairs, id, mode);
            if pair.id == id then
              && (pair in ForTg(now, tgChat) ==> mode != Bale2Tg)
              && (pair in ForBale(now, chat, username) ==> mode != Tg2Bale)
            else
              (pair in ForTg(now, tgChat) <==> pair in ForTg(pairs, tgChat)) &&
              (pair in ForBale(now, chat, username) <==> pair in ForBale(pairs, chat, username))
    ensures pair in pairs && pair.id == id ==>
              var changed, now := pair.(mode := mode), WithMode(pairs, id, mode);
              && (MatchesTg(pair, tgChat) && mode != Bale2Tg ==> changed in ForTg(now, tgChat))
              && (MatchesBale(pair, chat, username) && mode != Tg2Bale ==> changed in ForBale(now, chat, username))
  {
    hide Lower;
    hide WithoutAts;
    hide Forms;
    var now := WithMode(pairs, id, mode);
    WithModeExact(pairs, id, mode, pair);
    ForTgExact(now, tgChat, pair);
    ForTgExact(pairs, tgChat, pair);
    ForBaleExact(now, chat, username, pair);
    ForBaleExact(pairs, chat, username, pair);
    if pair in pairs && pair.id == id {
      var changed := pair.(mode := mode);
      assert changed.(mode := pair.mode) == pair && changed.(mode := pair.mode) in pairs;
      WithModeExact(pairs, id, mode, changed);
      ForTgExact(now, tgChat, changed);
      ForBaleExact(now, chat, username, changed);
    }
  }

  // ------------------------------------------------ removal

  /** Removing a pair removes it and no other, and keeps the order. */
  lemma {:induction false} WithoutIdExact(pairs: seq<Pair>, id: int, pair: Pair)
    ensures pair in WithoutId(pairs, id) <==> pair in pairs && pair.id != id
    ensures Subsequence(WithoutId(pairs, id), pairs)
  {
    hide Subsequence;
    if pairs == [] {
      NothingIsSubsequence(pairs);
    } else {
      var init, last := pairs[..|pairs| - 1], pairs[|pairs| - 1];
      WithoutIdExact(init, id, pair);
      SubsequenceTakes(WithoutId(init, id), init, last);
      assert pairs == init + [last];
    }
  }

  /** Removing a pair forgets its links and no other pair's. */
  lemma {:induction false} RemovalForgetsLinks(rows: seq<Row>, pair: int, a: Key, b: Key, p: int)
    ensures Linked(WithoutPair(rows, pair), a, b, p) <==> Linked(rows, a, b, p) && p != pair
  {
    if row :| row in WithoutPair(rows, pair) && Joins(row, a, b, p) {
      WithoutPairExact(rows, pair, row);
    }
    if row :| row in rows && Joins(row, a, b, p) {
      WithoutPairExact(rows, pair, row);
    }
  }
}
