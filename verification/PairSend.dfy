/**
 What `pair_send` writes and looks up, in both directions (bridge/transfer/mirror_t2b.py,
 mirror_b2t.py): the message rows, the ledger, the fingerprints and the resolved reply.
 */
module PairSend {
  import opened Sequences
  import opened Messages
  import opened MessageMap
  import opened Pairs
  import LoopCache

  // ------------------------------------------------ chat keys

  function Digit(n: nat): char
    requires n < 10
  {
    ('0' as int + n) as char
  }

  function Digits(n: nat): (s: string)
    ensures s != ""
    ensures n < 10 <==> |s| == 1
    ensures forall i | 0 <= i < |s| :: s[i] != '-'
  {
    if n < 10 then [Digit(n)] else Digits(n / 10) + [Digit(n % 10)]
  }

  /** `str(n)` */
  function Str(n: int): string
  {
    if n < 0 then "-" + Digits(-n) else Digits(n)
  }

  lemma {:induction false} DigitsInjective(a: nat, b: nat)
    requires Digits(a) == Digits(b)
    ensures a == b
  {
    if a >= 10 {
      var s, t := Digits(a), Digits(b);
      assert s[..|s| - 1] == Digits(a / 10) && t[..|t| - 1] == Digits(b / 10);
      assert s[|s| - 1] == Digit(a % 10) && t[|t| - 1] == Digit(b % 10);
      DigitsInjective(a / 10, b / 10);
    }
  }

  /** Different chats have different keys. */
  lemma {:induction false} StrInjective(a: int, b: int)
    ensures Str(a) == Str(b) <==> a == b
  {
    assert a < 0 <==> Str(a)[0] == '-';
    assert b < 0 <==> Str(b)[0] == '-';
    if Str(a) == Str(b) {
      if a < 0 {
        assert Str(a)[1..] == Digits(-a) && Str(b)[1..] == Digits(-b);
        DigitsInjective(-a, -b);
      } else {
        DigitsInjective(a, b);
      }
    }
  }

  /** `int(s)` of a decimal text. */
  function Value(s: string): int
  {
    if s == "" then 0
    else if s[0] == '-' then -Value(s[1..])
    else Value(s[..|s| - 1]) * 10 + (s[|s| - 1] as int - '0' as int)
  }

  lemma {:induction false} DigitsAreDecimal(n: nat)
    ensures Value(Digits(n)) == n && forall c | c in Digits(n) :: '0' <= c <= '9'
  {
    var s := Digits(n);
    if n < 10 {
      assert s[..0] == "" && Value("") == 0;
    } else {
      DigitsAreDecimal(n / 10);
      assert s[..|s| - 1] == Digits(n / 10) && s[|s| - 1] == Digit(n % 10);
    }
  }

  /** The key of a chat is its id in decimal. */
  lemma {:induction false} StrIsDecimal(n: int)
    ensures Value(Str(n)) == n
    ensures forall i | 0 <= i < |Str(n)| :: '0' <= Str(n)[i] <= '9' || (i == 0 && n < 0 && Str(n)[i] == '-')
  {
    DigitsAreDecimal(if n < 0 then -n else n);
    if n < 0 {
      assert Str(n)[1..] == Digits(-n);
      assert forall i | 0 < i < |Str(n)| :: Str(n)[i] == Digits(-n)[i - 1] && Digits(-n)[i - 1] in Digits(-n);
    } else {
      assert forall i | 0 <= i < |Str(n)| :: Str(n)[i] in Digits(n);
    }
  }

  // ------------------------------------------------ messages of a job

  /** A message of a job: its chat's key, its id, what it replies to, and its fingerprint. */
  datatype Source = Source(key: Key, replyTo: Option<nat>, fp: string)

  function TgSource(chatId: int, id: nat, replyTo: Option<nat>, fp: string): Source
  {
    Source(Key(Tg, Str(Bare(Some(chatId))), id), replyTo, fp)
  }

  function BaleSource(chat: string, id: nat, replyTo: Option<nat>, fp: string): Source
  {
    Source(Key(Bale, chat, id), replyTo, fp)
  }

  /** One message created on the other side, with the message it copies. */
  datatype Copy = Copy(source: Source, id: nat)

  /** The chat a pair sends to on `to`. */
  function Destination(pair: Pair, to: Platform): string
  {
    if to == Bale then pair.baleChat else Str(pair.tgChat)
  }

  function NewRows(pair: Pair, to: Platform, mapped: seq<Copy>, first: nat): (rows: seq<Row>)
    ensures |rows| == |mapped|
    ensures forall i | 0 <= i < |rows| :: rows[i] ==
              Row(first + i, pair.id, mapped[i].source.key, Key(to, Destination(pair, to), mapped[i].id))
  {
    seq(|mapped|, i requires 0 <= i < |mapped| =>
      Row(first + i, pair.id, mapped[i].source.key, Key(to, Destination(pair, to), mapped[i].id)))
  }

  function NewTokens(pair: Pair, to: Platform, mapped: seq<Copy>, clock: seq<real>): (rows: seq<LoopCache.SentRow>)
    requires |clock| == |mapped|
    ensures |rows| == |mapped|
    ensures forall i | 0 <= i < |rows| ::
            rows[i] == LoopCache.SentRow(Key(to, Destination(pair, to), mapped[i].id), clock[i])
  {
    seq(|mapped|, i requires 0 <= i < |mapped| =>
      LoopCache.SentRow(Key(to, Destination(pair, to), mapped[i].id), clock[i]))
  }

  function NewFps(
      pair: Pair, to: Platform, mapped: seq<Copy>, clock: seq<real>, first: nat): (rows: seq<LoopCache.FpRow>)
    requires |clock| == |mapped|
    ensures |rows| == |mapped|
    ensures forall i | 0 <= i < |rows| :: rows[i] ==
              LoopCache.FpRow(first + i, FpKey(to, Destination(pair, to), mapped[i].source.fp), clock[i])
  {
    seq(|mapped|, i requires 0 <= i < |mapped| =>
      LoopCache.FpRow(first + i, FpKey(to, Destination(pair, to), mapped[i].source.fp), clock[i]))
  }

  /** The first hit on platform `p`. */
  function FirstOn(hits: seq<Hit>, p: Platform): Option<nat>
  {
    if hits == [] then None
    else if hits[0].end.platform == p then Some(hits[0].end.id)
    else FirstOn(hits[1..], p)
  }

  /** The message a copy of `first` replies to. */
  function ReplyTo(rows: seq<Row>, first: Source, pair: Pair, to: Platform): Option<nat>
  {
    if first.replyTo == None then None
    else FirstOn(OtherSide(rows, first.key.(id := first.replyTo.value), Some(pair.id)), to)
  }

  lemma {:induction false} OneMore<T>(before: seq<T>, added: seq<T>, i: nat)
    requires i < |added|
    ensures before + added[..i + 1] == before + added[..i] + [added[i]]
  {
  }

  class PairSender {
    const links: MapEngine
    const cache: LoopCache.LoopCache

    constructor (links: MapEngine, cache: LoopCache.LoopCache)
      ensures this.links == links && this.cache == cache
    {
      this.links, this.cache := links, cache;
    }

    /** The reply lookup at the head of `pair_send`. */
    method ResolveReply(first: Source, pair: Pair, to: Platform) returns (replyTo: Option<nat>)
      ensures replyTo == ReplyTo(links.rows, first, pair, to)
    {
      replyTo := None;
      if first.replyTo.Some? {
        var hits := links.Lookup(first.key.(id := first.replyTo.value), Some(pair.id));
        var i := 0;
        while i < |hits|
          invariant i <= |hits|
          invariant FirstOn(hits, to) == FirstOn(hits[i..], to)
        {
          if hits[i].end.platform == to {
            return Some(hits[i].end.id);
          }
          i := i + 1;
        }
      }
    }

    /** The recording loop at the end of `pair_send`: one row, one token, one fingerprint per copy. */
    method Record(pair: Pair, to: Platform, mapped: seq<Copy>, clock: seq<real>)
      requires |clock| == |mapped|
      modifies links, cache
      ensures links.rows == old(links.rows) + NewRows(pair, to, mapped, old(links.nextId))
      ensures cache.sent == old(cache.sent) + NewTokens(pair, to, mapped, clock)
      ensures cache.fps == old(cache.fps) + NewFps(pair, to, mapped, clock, old(cache.nextFp))
      ensures links.nextId == old(links.nextId) + |mapped| && cache.nextFp == old(cache.nextFp) + |mapped|
    {
      ghost var rows := NewRows(pair, to, mapped, links.nextId);
      ghost var tokens := NewTokens(pair, to, mapped, clock);
      ghost var fps := NewFps(pair, to, mapped, clock, cache.nextFp);
      var dst := Destination(pair, to);
      for i := 0 to |mapped|
        invariant links.rows == old(links.rows) + rows[..i] && links.nextId == old(links.nextId) + i
        invariant cache.sent == old(cache.sent) + tokens[..i]
        invariant cache.fps == old(cache.fps) + fps[..i] && cache.nextFp == old(cache.nextFp) + i
      {
        var copy := mapped[i];
        links.Add(pair.id, copy.source.key, Key(to, dst, copy.id));
        cache.MarkSent(Key(to, dst, copy.id), clock[i]);
        cache.AddFp(FpKey(to, dst, copy.source.fp), clock[i]);
        OneMore(old(links.rows), rows, i);
        OneMore(old(cache.sent), tokens, i);
        OneMore(old(cache.fps), fps, i);
      }
      assert rows[..|mapped|] == rows && tokens[..|mapped|] == tokens && fps[..|mapped|] == fps;
    }
  }

  // ------------------------------------------------ rows stay inside their pair

  /** The row joins a message of the pair's Telegram chat to one of its Bale chat. */
  predicate InPair(row: Row, pair: Pair)
  {
    && row.pair == pair.id
    && ((OnSide(row.src, pair, Tg) && OnSide(row.dst, pair, Bale)) ||
        (OnSide(row.src, pair, Bale) && OnSide(row.dst, pair, Tg)))
  }

  predicate OnSide(key: Key, pair: Pair, p: Platform)
  {
    key.platform == p && key.chat == Destination(pair, p)
  }

  /** All messages of a job come from the chat the pairs were looked up for. */
  predicate FromChat(mapped: seq<Copy>, p: Platform, chat: string)
  {
    forall i | 0 <= i < |mapped| :: mapped[i].source.key.platform == p && mapped[i].source.key.chat == chat
  }

  /** Telegram to Bale: the rows stay inside the pair exactly when the pair's id is the chat's bare id. */
  lemma {:induction false} ToBaleRows(pairs: seq<Pair>, pair: Pair, chatId: int, mapped: seq<Copy>, first: nat, i: nat)
    requires pair in ForTg(pairs, Some(Bare(Some(chatId))))
    requires FromChat(mapped, Tg, Str(Bare(Some(chatId)))) && i < |mapped|
    ensures InPair(NewRows(pair, Bale, mapped, first)[i], pair) <==> Bare(Some(chatId)) == pair.tgChat
  {
    StrInjective(Bare(Some(chatId)), pair.tgChat);
  }

  /** So for pairs added under an id that fits the marked shape they always do. */
  lemma {:induction false} ToBaleRowsInPair(
      pairs: seq<Pair>, pair: Pair, chatId: int, y: Option<int>, mapped: seq<Copy>, first: nat, i: nat)
    requires pair in ForTg(pairs, Some(Bare(Some(chatId))))
    requires FromChat(mapped, Tg, Str(Bare(Some(chatId)))) && i < |mapped|
    requires pair.tgChat == Bare(y) && Bare(Some(chatId)) <= MAX_BARE
    ensures InPair(NewRows(pair, Bale, mapped, first)[i], pair)
  {
    ForTgExact(pairs, Some(Bare(Some(chatId))), pair);
    BareIdempotent(Some(chatId));
    AddedPairFound(pairs, pair, Some(Bare(Some(chatId))), y);
    ToBaleRows(pairs, pair, chatId, mapped, first, i);
  }

  /** Bale to Telegram: they do exactly when the pair was matched by id, not only by username. */
  lemma {:induction false} ToTgRows(
      pairs: seq<Pair>, pair: Pair, chat: string, username: Option<string>, mapped: seq<Copy>, first: nat, i: nat)
    requires pair in ForBale(pairs, chat, username) && FromChat(mapped, Bale, chat) && i < |mapped|
    ensures InPair(NewRows(pair, Tg, mapped, first)[i], pair) <==> pair.baleChat == chat
    ensures pair.baleChat != chat ==> MatchesUsername(pair, username)
  {
    ForBaleExact(pairs, chat, username, pair);
  }

  /** Every row of the pair is inside it. */
  ghost predicate Consistent(rows: seq<Row>, pair: Pair)
  {
    forall row | row in rows && row.pair == pair.id :: InPair(row, pair)
  }

  /**
   What the bridge does to the rows. `ReplaceCopy` is the fallback of an edit: the look-up of
   `edited` gave `hit`, the copy was sent again as message `id` where `hit` says, and
   `replace_dst` overwrote the destination of the row, whichever end that is.
   */
  datatype Act =
    | Mirror(pair: Pair, to: Platform, mapped: seq<Copy>)
    | ReplaceCopy(edited: Key, hit: Hit, id: nat)
    | RemoveLink(row: nat)
    | RemovePair(pairId: int)

  function After(rows: seq<Row>, n: nat, act: Act): (seq<Row>, nat)
  {
    match act
    case Mirror(pair, to, mapped) => (rows + NewRows(pair, to, mapped, n), n + |mapped|)
    case ReplaceCopy(_, hit, id) => (Redirected(rows, hit.row, hit.end.(id := id)), n)
    case RemoveLink(row) => (Without(rows, row), n)
    case RemovePair(pairId) => (WithoutPair(rows, pairId), n)
  }

  function History(acts: seq<Act>): (seq<Row>, nat)
  {
    if acts == [] then ([], 0)
    else
      var (rows, n) := History(acts[..|acts| - 1]);
      After(rows, n, acts[|acts| - 1])
  }

  /** A pair's id and chats never change, so all acts of one pair agree on them. */
  predicate SamePair(act: Act, pair: Pair)
  {
    act.Mirror? && act.pair.id == pair.id ==> act.pair.tgChat == pair.tgChat && act.pair.baleChat == pair.baleChat
  }

  /** `end` is what a look-up of `edited` gave for the row; its destination may have been sent again since. */
  predicate Named(row: Row, edited: Key, end: Key)
  {
    || (row.src == edited && end.platform == row.dst.platform && end.chat == row.dst.chat)
    || (row.src != edited && row.src == end)
  }

  /** The hit of a replacement still tells the ends of its row apart. */
  predicate LookedUp(rows: seq<Row>, act: Act, pair: Pair)
  {
    act.ReplaceCopy? ==>
      forall i | 0 <= i < |rows| && rows[i].id == act.hit.row && rows[i].pair == pair.id ::
        Named(rows[i], act.edited, act.hit.end)
  }

  /**
   What a caller can check before the act: jobs of the pair come from the pair's own chat,
   and a copy is only replaced when the edited message is the source of the row.
   */
  predicate Safe(rows: seq<Row>, act: Act, pair: Pair)
  {
    match act
    case Mirror(p, to, mapped) => p.id == pair.id ==> FromChat(mapped, Other(to), Destination(pair, Other(to)))
    case ReplaceCopy(edited, hit, _) =>
      forall i | 0 <= i < |rows| && rows[i].id == hit.row && rows[i].pair == pair.id :: rows[i].src == edited
    case _ => true
  }

  /** A row inside its pair stays inside it under a replacement exactly when the edited message is its source. */
  lemma {:induction false} ReplacedRowInPair(row: Row, pair: Pair, edited: Key, end: Key, id: nat)
    requires InPair(row, pair) && Named(row, edited, end)
    ensures InPair(row.(dst := end.(id := id)), pair) <==> row.src == edited
  {
  }

  lemma {:induction false} MirrorKeepsConsistent(
      rows: seq<Row>, n: nat, p: Pair, to: Platform, mapped: seq<Copy>, pair: Pair)
    requires Consistent(rows, pair) && SamePair(Mirror(p, to, mapped), pair)
    ensures Consistent(rows + NewRows(p, to, mapped, n), pair) <==> Safe(rows, Mirror(p, to, mapped), pair)
  {
    var added := NewRows(p, to, mapped, n);
    if Consistent(rows + added, pair) && p.id == pair.id {
      forall i | 0 <= i < |mapped|
        ensures OnSide(mapped[i].source.key, pair, Other(to))
      {
        assert added[i] in rows + added;
        assert InPair(added[i], pair);
      }
    }
  }

  lemma {:induction false} ReplaceKeepsConsistent(rows: seq<Row>, n: nat, act: Act, pair: Pair)
    requires Consistent(rows, pair) && act.ReplaceCopy? && LookedUp(rows, act, pair)
    ensures Consistent(After(rows, n, act).0, pair) <==> Safe(rows, act, pair)
  {
    hide InPair;
    hide Named;
    hide Redirected;
    var dst := act.hit.end.(id := act.id);
    var rows' := Redirected(rows, act.hit.row, dst);
    forall i | 0 <= i < |rows| && rows[i].id == act.hit.row && rows[i].pair == pair.id
      ensures rows[i].(dst := dst) in rows'
      ensures InPair(rows[i].(dst := dst), pair) <==> rows[i].src == act.edited
    {
      var row := rows[i].(dst := dst);
      RedirectedExact(rows, act.hit.row, dst, row);
      assert row.(dst := rows[i].dst) == rows[i] && rows[i] in rows;
      ReplacedRowInPair(rows[i], pair, act.edited, act.hit.end, act.id);
    }
    forall row | row in rows' && row.pair == pair.id
      ensures (row in rows && InPair(row, pair))
              || exists i :: 0 <= i < |rows| && rows[i].id == act.hit.row && rows[i].pair == pair.id &&
                  row == rows[i].(dst := dst)
    {
      RedirectedExact(rows, act.hit.row, dst, row);
      if row !in rows || row.id == act.hit.row {
        var d :| row.(dst := d) in rows;
        var i :| 0 <= i < |rows| && rows[i] == row.(dst := d);
        assert row == rows[i].(dst := dst);
      }
    }
  }

  /** One act keeps the rows of the pair inside it exactly when it is safe. */
  lemma {:induction false} ActKeepsConsistent(rows: seq<Row>, n: nat, act: Act, pair: Pair)
    requires Consistent(rows, pair) && SamePair(act, pair) && LookedUp(rows, act, pair)
    ensures Consistent(After(rows, n, act).0, pair) <==> Safe(rows, act, pair)
  {
    match act
    case Mirror(p, to, mapped) => MirrorKeepsConsistent(rows, n, p, to, mapped, pair);
    case ReplaceCopy(_, _, _) => ReplaceKeepsConsistent(rows, n, act, pair);
    case RemoveLink(row) =>
      forall r | r in Without(rows, row)
        ensures r in rows
      {
        WithoutExact(rows, row, r);
      }
    case RemovePair(id) =>
      forall r | r in WithoutPair(rows, id)
        ensures r in rows
      {
        WithoutPairExact(rows, id, r);
      }
  }

  /** The hit of a replacement was looked up at some time before; much may have happened since. */
  ghost predicate HitIsGenuine(acts: seq<Act>, i: nat)
    requires i < |acts|
  {
    acts[i].ReplaceCopy? ==> exists m: nat :: m <= i && LookupGave(acts, m, acts[i].edited, acts[i].hit)
  }

  /** After the first `m` acts the look-up of `edited` gives `hit`. */
  predicate LookupGave(acts: seq<Act>, m: nat, edited: Key, hit: Hit)
    requires m <= |acts|
  {
    hit in OtherSide(History(acts[..m]).0, edited, None)
  }

  /** The acts are the bridge's: they agree on the pair, and replacements follow look-ups. */
  ghost predicate Acts(acts: seq<Act>, pair: Pair)
  {
    forall i | 0 <= i < |acts| :: SamePair(acts[i], pair) && HitIsGenuine(acts, i)
  }

  /** Each act was safe when it was done. */
  ghost predicate AllSafe(acts: seq<Act>, pair: Pair, n: nat)
    requires n <= |acts|
  {
    forall i | 0 <= i < n :: Safe(History(acts[..i]).0, acts[i], pair)
  }

  lemma {:induction false} HistoryStep(acts: seq<Act>, n: nat)
    requires 0 < n <= |acts|
    ensures History(acts[..n]) == After(History(acts[..n - 1]).0, History(acts[..n - 1]).1, acts[n - 1])
  {
    assert acts[..n][..n - 1] == acts[..n - 1];
  }

  // ------------------------------------------------ look-ups name the row they came from

  /** Rows carry different ids, all given out before `n`. */
  ghost predicate Numbered(rows: seq<Row>, n: nat)
  {
    && (forall i, j | 0 <= i < j < |rows| :: rows[i].id < rows[j].id)
    && (forall i | 0 <= i < |rows| :: rows[i].id < n)
  }

  lemma {:induction false} NumberedWithout(rows: seq<Row>, n: nat, id: nat)
    requires Numbered(rows, n)
    ensures Numbered(Without(rows, id), n)
  {
    if rows != [] {
      var init, last := rows[..|rows| - 1], rows[|rows| - 1];
      NumberedWithout(init, last.id, id);
    }
  }

  lemma {:induction false} NumberedWithoutPair(rows: seq<Row>, n: nat, pair: int)
    requires Numbered(rows, n)
    ensures Numbered(WithoutPair(rows, pair), n)
  {
    if rows != [] {
      var init, last := rows[..|rows| - 1], rows[|rows| - 1];
      NumberedWithoutPair(init, last.id, pair);
    }
  }

  lemma {:induction false} NumberedRedirected(rows: seq<Row>, n: nat, id: nat, dst: Key)
    requires Numbered(rows, n)
    ensures Numbered(Redirected(rows, id, dst), n)
  {
    if rows != [] {
      var init, last := rows[..|rows| - 1], rows[|rows| - 1];
      NumberedRedirected(init, last.id, id, dst);
    }
  }

  lemma {:induction false} HistoryNumbered(acts: seq<Act>)
    ensures Numbered(History(acts).0, History(acts).1)
  {
    if acts != [] {
      var (rows, n) := History(acts[..|acts| - 1]);
      HistoryNumbered(acts[..|acts| - 1]);
      match acts[|acts| - 1]
      case Mirror(_, _, _) =>
      case ReplaceCopy(_, hit, id) => NumberedRedirected(rows, n, hit.row, hit.end.(id := id));
      case RemoveLink(row) => NumberedWithout(rows, n, row);
      case RemovePair(id) => NumberedWithoutPair(rows, n, id);
    }
  }

  /** The same row, whose copy may have been sent again to the same chat. */
  predicate SameRoute(a: Row, b: Row)
  {
    a.id == b.id && a.pair == b.pair && a.src == b.src && a.dst.platform == b.dst.platform && a.dst.chat == b.dst.chat
  }

  /** The rows of the pair that are older than `bound` were all in `past`. */
  ghost predicate Descends(past: seq<Row>, bound: nat, rows: seq<Row>, pair: Pair)
  {
    forall row | row in rows && row.id < bound && row.pair == pair.id :: exists a :: a in past && SameRoute(a, row)
  }

  lemma {:induction false} DescendsItself(rows: seq<Row>, bound: nat, pair: Pair)
    ensures Descends(rows, bound, rows, pair)
  {
    forall row | row in rows
      ensures SameRoute(row, row)
    {
    }
  }

  lemma {:induction false} RowsComeFrom(rows: seq<Row>, n: nat, act: Act, pair: Pair, bound: nat, row: Row)
    requires bound <= n && Safe(rows, act, pair) && LookedUp(rows, act, pair)
    requires row in After(rows, n, act).0 && row.id < bound && row.pair == pair.id
    ensures exists b :: b in rows && SameRoute(b, row)
  {
    match act
    case Mirror(p, to, mapped) => assert row in rows && SameRoute(row, row);
    case ReplaceCopy(edited, hit, id) =>
      RedirectedExact(rows, hit.row, hit.end.(id := id), row);
      if row in rows && row.id != hit.row {
        assert SameRoute(row, row);
      } else {
        var d :| row.(dst := d) in rows;
        var i :| 0 <= i < |rows| && rows[i] == row.(dst := d);
        assert SameRoute(rows[i], row);
      }
    case RemoveLink(id) =>
      WithoutExact(rows, id, row);
      assert SameRoute(row, row);
    case RemovePair(id) =>
      WithoutPairExact(rows, id, row);
      assert SameRoute(row, row);
  }

  lemma {:induction false} DescendsOn(past: seq<Row>, bound: nat, rows: seq<Row>, n: nat, act: Act, pair: Pair)
    requires Descends(past, bound, rows, pair) && bound <= n && Safe(rows, act, pair) && LookedUp(rows, act, pair)
    ensures Descends(past, bound, After(rows, n, act).0, pair)
  {
    hide After;
    hide Safe;
    hide LookedUp;
    forall row | row in After(rows, n, act).0 && row.id < bound && row.pair == pair.id
      ensures exists a :: a in past && SameRoute(a, row)
    {
      RowsComeFrom(rows, n, act, pair, bound, row);
      var b :| b in rows && SameRoute(b, row);
      var a :| a in past && SameRoute(a, b);
      assert SameRoute(a, row);
    }
  }

  /** A safe run only ever changes which message of the same chat a row of the pair points to. */
  lemma {:induction false} RowsDescend(acts: seq<Act>, pair: Pair, m: nat, n: nat)
    requires Acts(acts, pair) && m <= n <= |acts| && AllSafe(acts, pair, n)
    ensures History(acts[..m]).1 <= History(acts[..n]).1
    ensures Descends(History(acts[..m]).0, History(acts[..m]).1, History(acts[..n]).0, pair)
    decreases n, 0
  {
    hide *;
    if m == n {
      DescendsItself(History(acts[..m]).0, History(acts[..m]).1, pair);
    } else {
      SafeBefore(acts, pair, n);
      RowsDescend(acts, pair, m, n - 1);
      HitsStayNamed(acts, pair, n - 1);
      HistoryStep(acts, n);
      var (rows, next) := History(acts[..n - 1]);
      DescendsOn(History(acts[..m]).0, History(acts[..m]).1, rows, next, acts[n - 1], pair);
      NumbersGrow(rows, next, acts[n - 1]);
    }
  }

  lemma {:induction false} SafeBefore(acts: seq<Act>, pair: Pair, n: nat)
    requires 0 < n <= |acts| && AllSafe(acts, pair, n)
    ensures AllSafe(acts, pair, n - 1) && Safe(History(acts[..n - 1]).0, acts[n - 1], pair)
  {
    hide Safe;
    hide History;
  }

  lemma {:induction false} NumbersGrow(rows: seq<Row>, n: nat, act: Act)
    ensures n <= After(rows, n, act).1
  {
  }

  /** A hit tells the ends of its row apart. */
  lemma {:induction false} HitNames(rows: seq<Row>, n: nat, edited: Key, hit: Hit)
    requires Numbered(rows, n) && hit in OtherSide(rows, edited, None)
    ensures hit.row < n && forall row | row in rows && row.id == hit.row :: Named(row, edited, hit.end)
  {
    hide OtherSide;
    LookupSound(rows, edited, None);
    var row :| row in rows && row.id == hit.row && Joins(row, edited, hit.end, hit.pair);
  }

  /** In a safe run it still does when the replacement is done, whatever came between. */
  lemma {:induction false} HitsStayNamed(acts: seq<Act>, pair: Pair, n: nat)
    requires Acts(acts, pair) && n < |acts| && AllSafe(acts, pair, n)
    ensures LookedUp(History(acts[..n]).0, acts[n], pair)
    decreases n, 1
  {
    hide History;
    hide AllSafe;
    hide LookupGave;
    if acts[n].ReplaceCopy? {
      assert HitIsGenuine(acts, n);
      var m: nat :| m <= n && LookupGave(acts, m, acts[n].edited, acts[n].hit);
      RowsDescend(acts, pair, m, n);
      HitNamesAt(acts, m, acts[n].edited, acts[n].hit);
      NamesDescend(History(acts[..m]).0, History(acts[..m]).1, History(acts[..n]).0, acts[n], pair);
    }
  }

  lemma {:induction false} HitNamesAt(acts: seq<Act>, m: nat, edited: Key, hit: Hit)
    requires m <= |acts| && LookupGave(acts, m, edited, hit)
    ensures hit.row < History(acts[..m]).1
    ensures forall row | row in History(acts[..m]).0 && row.id == hit.row :: Named(row, edited, hit.end)
  {
    hide History;
    HistoryNumbered(acts[..m]);
    hide Numbered;
    HitNames(History(acts[..m]).0, History(acts[..m]).1, edited, hit);
  }

  lemma {:induction false} NamesDescend(past: seq<Row>, bound: nat, rows: seq<Row>, act: Act, pair: Pair)
    requires act.ReplaceCopy? && act.hit.row < bound && Descends(past, bound, rows, pair)
    requires forall row | row in past && row.id == act.hit.row :: Named(row, act.edited, act.hit.end)
    ensures LookedUp(rows, act, pair)
  {
    forall i | 0 <= i < |rows| && rows[i].id == act.hit.row && rows[i].pair == pair.id
      ensures Named(rows[i], act.edited, act.hit.end)
    {
      var a :| a in past && SameRoute(a, rows[i]);
      assert Named(a, act.edited, act.hit.end);
    }
  }

  // ------------------------------------------------ rows stay inside their pair

  lemma {:induction false} ConsistentWhileSafe(acts: seq<Act>, pair: Pair, n: nat)
    requires Acts(acts, pair) && n <= |acts| && AllSafe(acts, pair, n)
    ensures Consistent(History(acts[..n]).0, pair)
  {
    hide Consistent;
    hide After;
    hide Safe;
    hide SamePair;
    hide LookedUp;
    hide HitIsGenuine;
    if n == 0 {
      NoRowsConsistent(pair);
    } else {
      hide History;
      ConsistentWhileSafe(acts, pair, n - 1);
      HitsStayNamed(acts, pair, n - 1);
      HistoryStep(acts, n);
      ActKeepsConsistent(History(acts[..n - 1]).0, History(acts[..n - 1]).1, acts[n - 1], pair);
    }
  }

  lemma {:induction false} NoRowsConsistent(pair: Pair)
    ensures Consistent([], pair)
  {
  }

  lemma {:induction false} FirstUnsafe(acts: seq<Act>, pair: Pair, n: nat)
    requires Acts(acts, pair) && n <= |acts| && !AllSafe(acts, pair, n)
    ensures exists m :: 0 <= m <= |acts| && !Consistent(History(acts[..m]).0, pair)
    decreases n
  {
    hide Consistent;
    hide After;
    hide Safe;
    hide SamePair;
    hide LookedUp;
    hide HitIsGenuine;
    hide History;
    if AllSafe(acts, pair, n - 1) {
      ConsistentWhileSafe(acts, pair, n - 1);
      HitsStayNamed(acts, pair, n - 1);
      HistoryStep(acts, n);
      ActKeepsConsistent(History(acts[..n - 1]).0, History(acts[..n - 1]).1, acts[n - 1], pair);
    } else {
      FirstUnsafe(acts, pair, n - 1);
    }
  }

  /**
   Over any sequence of mirrored jobs, replaced copies and removals: every row of the pair
   joins its two chats at all times if and only if every job of the pair was matched by its
   ids and every copy was replaced for an edit of its row's source.
   */
  lemma {:induction false} RowsStayInPairs(acts: seq<Act>, pair: Pair)
    requires Acts(acts, pair)
    ensures (forall n | 0 <= n <= |acts| :: Consistent(History(acts[..n]).0, pair)) <==> AllSafe(acts, pair, |acts|)
  {
    if AllSafe(acts, pair, |acts|) {
      forall n | 0 <= n <= |acts|
        ensures Consistent(History(acts[..n]).0, pair)
      {
        ConsistentWhileSafe(acts, pair, n);
      }
    } else {
      FirstUnsafe(acts, pair, |acts|);
    }
  }

  // ------------------------------------------------ replies

  /** The first hit on the platform. */
  predicate IsFirstOn(hits: seq<Hit>, p: Platform, i: nat)
  {
    i < |hits| && hits[i].end.platform == p && forall j | 0 <= j < i :: hits[j].end.platform != p
  }

  lemma {:induction false} FirstOnFinds(hits: seq<Hit>, p: Platform)
    ensures match FirstOn(hits, p)
            case Some(id) => exists i: nat :: IsFirstOn(hits, p, i) && hits[i].end.id == id
            case None => forall i | 0 <= i < |hits| :: hits[i].end.platform != p
  {
    if hits != [] && hits[0].end.platform == p {
      assert IsFirstOn(hits, p, 0);
    } else if hits != [] {
      FirstOnFinds(hits[1..], p);
      if FirstOn(hits, p).Some? {
        var i: nat :| IsFirstOn(hits[1..], p, i) && hits[1..][i].end.id == FirstOn(hits, p).value;
        assert IsFirstOn(hits, p, i + 1) && hits[i + 1] == hits[1..][i];
      } else {
        forall i | 0 <= i < |hits|
          ensures hits[i].end.platform != p
        {
          assert i > 0 ==> hits[i] == hits[1..][i - 1];
        }
      }
    }
  }

  /** Row `n` is the oldest that joins the message to one of the platform, in the pair. */
  ghost predicate IsOldest(rows: seq<Row>, key: Key, pair: int, p: Platform, n: nat)
  {
    && n < |rows| && Touches(rows[n], key, Some(pair)) && Opposite(rows[n], key).platform == p
    && forall j | 0 <= j < n && Touches(rows[j], key, Some(pair)) :: Opposite(rows[j], key).platform != p
  }

  /**
   Which message a reply resolves to: of several linked ones the one whose row is the oldest,
   so a text sent in parts is answered at its first part.
   */
  lemma {:induction false} ReplyIsOldest(rows: seq<Row>, first: Source, pair: Pair, to: Platform)
    requires ReplyTo(rows, first, pair, to).Some?
    ensures var asked := first.key.(id := first.replyTo.value);
            exists n: nat ::
              && IsOldest(rows, asked, pair.id, to, n)
              && Opposite(rows[n], asked).id == ReplyTo(rows, first, pair, to).value
  {
    hide OtherSide;
    hide Touches;
    var asked := first.key.(id := first.replyTo.value);
    var hits := OtherSide(rows, asked, Some(pair.id));
    FirstOnFinds(hits, to);
    var i: nat :| IsFirstOn(hits, to, i) && hits[i].end.id == ReplyTo(rows, first, pair, to).value;
    LookupInOrder(rows, asked, Some(pair.id));
    var at: seq<nat> :| ComeFrom(at, hits, rows, asked, Some(pair.id));
    OldestRow(at, hits, rows, asked, pair.id, to, i);
    assert IsOldest(rows, asked, pair.id, to, at[i]);
  }

  lemma {:induction false} EarlierIsBefore(at: seq<nat>, m: nat, i: nat)
    requires forall a, b | 0 <= a < b < |at| :: at[a] < at[b]
    requires m < |at| && i < |at| && at[m] < at[i]
    ensures m < i
  {
  }

  lemma {:induction false} OldestRow(
      at: seq<nat>, hits: seq<Hit>, rows: seq<Row>, key: Key, pair: int, p: Platform, i: nat)
    requires hits == OtherSide(rows, key, Some(pair)) && ComeFrom(at, hits, rows, key, Some(pair))
    requires IsFirstOn(hits, p, i)
    ensures IsOldest(rows, key, pair, p, at[i])
  {
    hide OtherSide;
    hide Touches;
    forall j | 0 <= j < at[i] && Touches(rows[j], key, Some(pair))
      ensures Opposite(rows[j], key).platform != p
    {
      TouchedIsFound(rows, j, key, Some(pair));
      var m :| 0 <= m < |hits| && hits[m].end == Opposite(rows[j], key) && hits[m].pair == rows[j].pair;
      EarlierIsBefore(at, m, i);
    }
  }

  /** In a pair whose rows are inside it, a message on one side is linked only to messages of the other side's chat. */
  lemma {:induction false} LinkedAcross(rows: seq<Row>, pair: Pair, key: Key, end: Key, to: Platform)
    requires Consistent(rows, pair) && OnSide(key, pair, Other(to)) && Linked(rows, key, end, pair.id)
    ensures end == Key(to, Destination(pair, to), end.id)
  {
    var row :| row in rows && Joins(row, key, end, pair.id);
    assert InPair(row, pair);
  }

  /**
   A resolved reply is a message of the destination chat linked, in the same pair, to the
   message replied to; and one is resolved whenever there is such a message.
   */
  lemma {:induction false} ReplyIsLinked(rows: seq<Row>, first: Source, pair: Pair, to: Platform)
    requires Consistent(rows, pair) && OnSide(first.key, pair, Other(to)) && first.replyTo.Some?
    ensures var asked := first.key.(id := first.replyTo.value);
            match ReplyTo(rows, first, pair, to)
            case Some(id) => Linked(rows, asked, Key(to, Destination(pair, to), id), pair.id)
            case None => forall end :: !Linked(rows, asked, end, pair.id)
  {
    hide Linked;
    hide Found;
    var asked := first.key.(id := first.replyTo.value);
    var hits := OtherSide(rows, asked, Some(pair.id));
    FirstOnFinds(hits, to);
    LookupSound(rows, asked, Some(pair.id));
    if ReplyTo(rows, first, pair, to).Some? {
      var id := ReplyTo(rows, first, pair, to).value;
      var i :| 0 <= i < |hits| && hits[i].end.platform == to && hits[i].end.id == id;
      HitIsLinked(rows, asked, pair.id, i);
      LinkedAcross(rows, pair, asked, hits[i].end, to);
    } else {
      forall end
        ensures !Linked(rows, asked, end, pair.id)
      {
        if Linked(rows, asked, end, pair.id) {
          LinkedAcross(rows, pair, asked, end, to);
          LookupExact(rows, asked, Some(pair.id), end, pair.id);
          NotFoundOnPlatform(hits, end, pair.id);
        }
      }
    }
  }

  lemma {:induction false} NotFoundOnPlatform(hits: seq<Hit>, end: Key, pair: int)
    requires forall i | 0 <= i < |hits| :: hits[i].end.platform != end.platform
    ensures !Found(hits, end, pair)
  {
  }

  lemma {:induction false} HitIsLinked(rows: seq<Row>, key: Key, pair: int, i: nat)
    requires i < |OtherSide(rows, key, Some(pair))|
    ensures Linked(rows, key, OtherSide(rows, key, Some(pair))[i].end, pair)
  {
    var h := OtherSide(rows, key, Some(pair))[i];
    assert Found(OtherSide(rows, key, Some(pair)), h.end, h.pair);
    LookupExact(rows, key, Some(pair), h.end, h.pair);
  }

  /**
   The two together: after any safe sequence of jobs, replaced copies and removals a
   resolved reply is a message of the destination chat linked, in the pair, to the message
   replied to, and one is resolved whenever there is such a message.
   */
  lemma {:induction false} RepliesStayLinked(acts: seq<Act>, pair: Pair, first: Source, to: Platform)
    requires Acts(acts, pair) && AllSafe(acts, pair, |acts|)
    requires OnSide(first.key, pair, Other(to)) && first.replyTo.Some?
    ensures var rows, asked := History(acts).0, first.key.(id := first.replyTo.value);
            match ReplyTo(rows, first, pair, to)
            case Some(id) => Linked(rows, asked, Key(to, Destination(pair, to), id), pair.id)
            case None => forall end :: !Linked(rows, asked, end, pair.id)
  {
    hide History;
    hide Consistent;
    hide Linked;
    hide ReplyTo;
    ConsistentWhileSafe(acts, pair, |acts|);
    assert acts[..|acts|] == acts;
    ReplyIsLinked(History(acts).0, first, pair, to);
  }

  /**
   The condition on edits is needed: a Bale message is mirrored, its Telegram copy is edited,
   and the Bale original replaced. The row then joins two Bale messages, and a reply to the
   Telegram copy finds nothing.
   */
  lemma {:induction false} EditedCopyLeavesPair(id: nat)
    ensures var pair := Pair(1, 100, "7", "", Both);
            var row := Row(0, 1, Key(Bale, "7", 5), Key(Tg, Str(100), 20));
            var act := ReplaceCopy(row.dst, Hit(row.src, 1, 0), id);
            && OtherSide([row], row.dst, None) == [act.hit] && Consistent([row], pair) && LookedUp([row], act, pair)
            && After([row], 1, act).0 == [row.(dst := Key(Bale, "7", id))]
            && !Consistent(After([row], 1, act).0, pair)
            && ReplyTo([row], TgSource(100, 21, Some(20), ""), pair, Bale) == Some(5)
            && ReplyTo(After([row], 1, act).0, TgSource(100, 21, Some(20), ""), pair, Bale) == None
  {
    var pair := Pair(1, 100, "7", "", Both);
    var row := Row(0, 1, Key(Bale, "7", 5), Key(Tg, Str(100), 20));
    var act := ReplaceCopy(row.dst, Hit(row.src, 1, 0), id);
    OneRowLookup(row, row.dst, None);
    OneRowLookup(row, row.dst, Some(1));
    assert [row][..0] == [];
    assert Redirected([row], 0, row.src.(id := id)) == [row.(dst := Key(Bale, "7", id))];
    OneRowLookup(row.(dst := Key(Bale, "7", id)), row.dst, Some(1));
    assert row.(dst := Key(Bale, "7", id)) in After([row], 1, act).0;
  }

  /** A look-up in a table of one row. */
  lemma {:induction false} OneRowLookup(row: Row, key: Key, pair: Option<int>)
    ensures OtherSide([row], key, pair) ==
            if Touches(row, key, pair) then [Hit(Opposite(row, key), row.pair, row.id)] else []
  {
    assert [row][..0] == [];
  }

  /**
   Not so for a pair matched by username alone: after a message of another Bale chat "8" is
   mirrored under it, a reply in Telegram resolves to an id of that other chat.
   */
  lemma {:induction false} UsernameMatchBreaksReplies()
    ensures var pair := Pair(1, 100, "7", "news", Both);
            var mapped := [Copy(BaleSource("8", 5, None, ""), 20)];
            var reply := TgSource(100, 21, Some(20), "");
            && pair in ForBale([pair], "8", Some("news"))
            && ReplyTo(NewRows(pair, Tg, mapped, 0), reply, pair, Bale) == Some(5)
            && !Linked(NewRows(pair, Tg, mapped, 0), reply.key.(id := 20), Key(Bale, pair.baleChat, 5), 1)
  {
    var pair := Pair(1, 100, "7", "news", Both);
    var mapped := [Copy(BaleSource("8", 5, None, ""), 20)];
    var reply := TgSource(100, 21, Some(20), "");
    ForBaleExact([pair], "8", Some("news"), pair);
    var rows := NewRows(pair, Tg, mapped, 0);
    assert rows == [Row(0, 1, Key(Bale, "8", 5), Key(Tg, Str(100), 20))];
    OneRowLookup(rows[0], Key(Tg, Str(100), 20), Some(1));
  }
}
