/**
 Telegram to Bale edits (bridge/transfer/sync_edit.py). When a copy cannot be edited it is
 replaced: the echo of its deletion is suppressed, a new copy is sent, the old one deleted,
 and the row redirected. Every call may fail; `Fate` says how it went.
 */
module EditSync {
  import opened Sequences
  import opened Messages
  import opened MessageMap
  import opened Pairs
  import PairSend

  /**
   The replacement: some messages sent before an exception, or the number sent and whether the
   old copy could be deleted.
   */
  datatype Resend = Broken(sent: nat) | Sent(sent: nat, deleted: bool)

  /** The edit call: it worked, was refused by the platform, or raised something else. */
  datatype Fate = Edited | Refused(resend: Resend) | Raised

  datatype State = State(
    rows: seq<Row>,
    ignore: set<Key>,       // deletions whose echo is to be ignored
    live: set<Key>,         // messages that exist on the platforms
    marked: seq<Key>,       // ledger tokens written
    next: nat)              // the next fresh message id

  /** The messages a send of `n` creates. */
  function Created(chat: string, next: nat, n: nat): set<Key>
  {
    set i | next <= i < next + n :: Key(Bale, chat, i)
  }

  /** Rows this direction does not serve are passed over. */
  predicate Serves(hit: Hit, pairs: map<int, Pair>)
  {
    hit.end.platform == Bale && hit.pair in pairs && pairs[hit.pair].mode != Bale2Tg
  }

  /** The replacement of one copy. */
  function Replaced(s: State, hit: Hit, chat: string, resend: Resend): State
  {
    var sent := s.(live := s.live + Created(chat, s.next, resend.sent), next := s.next + resend.sent);
    if resend.Broken? || resend.sent == 0 then sent.(ignore := s.ignore - {hit.end})
    else
      var copy := Key(Bale, hit.end.chat, s.next);
      sent.(ignore := s.ignore + {hit.end},
            live := if resend.deleted then sent.live - {hit.end} else sent.live,
            rows := Redirected(s.rows, hit.row, copy),
            marked := s.marked + [copy])
  }

  /** One turn of the loop: the state, and whether the loop goes on. */
  function Turn(s: State, hit: Hit, pairs: map<int, Pair>, fate: Fate): (State, bool)
  {
    if !Serves(hit, pairs) then (s, true)
    else
      match fate
      case Edited => (s, true)
      case Refused(resend) => (Replaced(s, hit, pairs[hit.pair].baleChat, resend), true)
      case Raised => (s, false)
  }

  /** The first `n` turns. */
  function Turns(s: State, hits: seq<Hit>, pairs: map<int, Pair>, fates: nat -> Fate, n: nat): (State, bool)
    requires n <= |hits|
  {
    if n == 0 then (s, true)
    else
      var (t, going) := Turns(s, hits, pairs, fates, n - 1);
      if going then Turn(t, hits[n - 1], pairs, fates(n - 1)) else (t, false)
  }

  class EditSyncEngine {
    const links: MapEngine
    var ignore: set<Key>
    var live: set<Key>
    var marked: seq<Key>
    var next: nat

    function Abs(): State
      reads this, links
    {
      State(links.rows, ignore, live, marked, next)
    }

    constructor (links: MapEngine, live: set<Key>, next: nat)
      ensures this.links == links && Abs() == State(links.rows, {}, live, [], next)
    {
      this.links := links;
      ignore, marked := {}, [];
      this.live, this.next := live, next;
    }

    /** `msg_to_bale`: creates messages and returns their ids, or `None` if it raised on the way. */
    method Send(chat: string, resend: Resend) returns (ids: Option<seq<nat>>)
      modifies this`live, this`next
      ensures live == old(live) + Created(chat, old(next), resend.sent) && next == old(next) + resend.sent
      ensures ids == if resend.Broken? then None else Some(seq(resend.sent, i => old(next) + i))
    {
      var first := next;
      live := live + Created(chat, first, resend.sent);
      ids := if resend.Broken? then None else Some(seq(resend.sent, i => first + i));
      next := first + resend.sent;
    }

    method Replace(hit: Hit, chat: string, resend: Resend)
      modifies this, links
      ensures Abs() == Replaced(old(Abs()), hit, chat, resend)
    {
      ignore := ignore + {hit.end};
      var ids := Send(chat, resend);
      if ids == None || ids.value == [] {
        ignore := ignore - {hit.end};
        return;
      }
      if resend.deleted {
        live := live - {hit.end};
      }
      var copy := Key(Bale, hit.end.chat, ids.value[0]);
      links.ReplaceDst(hit.row, copy);
      marked := marked + [copy];
    }

    /** `process_tg_edit`; `finished` is false when an exception left the loop. */
    method ProcessTgEdit(msg: Key, pairs: map<int, Pair>, fates: nat -> Fate) returns (finished: bool)
      modifies this, links
      ensures var hits := OtherSide(old(links.rows), msg, None);
              (Abs(), finished) == Turns(old(Abs()), hits, pairs, fates, |hits|)
    {
      var hits := links.Lookup(msg, None);
      for i := 0 to |hits|
        invariant (Abs(), true) == Turns(old(Abs()), hits, pairs, fates, i)
      {
        var o := hits[i];
        if o.end.platform == Bale && o.pair in pairs && pairs[o.pair].mode != Bale2Tg {
          match fates(i)
          case Edited =>
          case Raised =>
            StoppedStays(old(Abs()), hits, pairs, fates, i + 1, |hits|);
            return false;
          case Refused(resend) =>
            Replace(o, pairs[o.pair].baleChat, resend);
        }
      }
      return true;
    }
  }

  /** An exception ends the loop: the later turns do not happen. */
  lemma {:induction false} StoppedStays(
      s: State, hits: seq<Hit>, pairs: map<int, Pair>, fates: nat -> Fate, m: nat, n: nat)
    requires m <= n <= |hits| && !Turns(s, hits, pairs, fates, m).1
    ensures Turns(s, hits, pairs, fates, n) == Turns(s, hits, pairs, fates, m)
    decreases n
  {
    if m < n {
      StoppedStays(s, hits, pairs, fates, m, n - 1);
    }
  }

  // ------------------------------------------------ no copy is lost

  /** Rows have their own ids; the rows `msg` is on join it to different messages, and no fresh id is in use. */
  ghost predicate Ready(s: State, msg: Key)
  {
    && (forall i, j | 0 <= i < j < |s.rows| :: s.rows[i].id != s.rows[j].id)
    && (forall i, j | 0 <= i < j < |s.rows| && Touches(s.rows[i], msg, None) && Touches(s.rows[j], msg, None) ::
          Opposite(s.rows[i], msg) != Opposite(s.rows[j], msg))
    && (forall i | 0 <= i < |s.rows| :: s.rows[i].dst.id < s.next && s.rows[i].src.id < s.next)
    && (forall k | k in s.live :: k.id < s.next)
  }

  /** The row's copy is in the chat the row's pair sends to, as `pair_send` wrote it. */
  predicate InPlace(row: Row, pairs: map<int, Pair>)
  {
    row.pair in pairs ==> row.dst.chat == pairs[row.pair].baleChat
  }

  /** The row of `msg` whose copy existed at the start still has one. */
  predicate Kept(before: State, now: State, msg: Key, j: nat)
    requires j < |before.rows| && |now.rows| == |before.rows|
  {
    before.rows[j].src == msg && before.rows[j].dst in before.live ==> now.rows[j].dst in now.live
  }

  /** The rows are those at the start, some redirected to a fresh copy; fresh copies are not at risk. */
  ghost predicate SameRows(before: State, now: State)
  {
    && |now.rows| == |before.rows| && before.next <= now.next
    && forall j | 0 <= j < |now.rows| ::
         && now.rows[j] == before.rows[j].(dst := now.rows[j].dst)
         && (now.rows[j].dst == before.rows[j].dst || before.next <= now.rows[j].dst.id < now.next)
  }

  lemma {:induction false} RedirectedAt(rows: seq<Row>, id: nat, dst: Key, j: nat)
    requires j < |rows|
    ensures Redirected(rows, id, dst)[j] == if rows[j].id == id then rows[j].(dst := dst) else rows[j]
  {
    if j < |rows| - 1 {
      RedirectedAt(rows[..|rows| - 1], id, dst, j);
    }
  }

  /** The row a hit came from. */
  lemma {:induction false} HitRow(rows: seq<Row>, msg: Key, h: Hit) returns (r: nat)
    requires h in OtherSide(rows, msg, None)
    ensures r < |rows| && rows[r].id == h.row && rows[r].pair == h.pair
    ensures Touches(rows[r], msg, None) && Opposite(rows[r], msg) == h.end
  {
    LookupSound(rows, msg, None);
    var row :| row in rows && row.id == h.row && Joins(row, msg, h.end, h.pair);
    r :| 0 <= r < |rows| && rows[r] == row;
  }

  /** Replacing the copy of row `r` keeps every row of `msg`. */
  lemma {:induction false} ReplacementKeeps(
      before: State, s: State, msg: Key, hit: Hit, r: nat, chat: string, resend: Resend)
    requires Ready(before, msg) && SameRows(before, s)
    requires r < |before.rows| && before.rows[r].id == hit.row
    requires Touches(before.rows[r], msg, None) && Opposite(before.rows[r], msg) == hit.end
    requires before.rows[r].src == msg ==> hit.end.chat == chat
    requires hit.end.platform == Bale
    requires forall j | 0 <= j < |before.rows| :: Kept(before, s, msg, j)
    ensures SameRows(before, Replaced(s, hit, chat, resend))
    ensures forall j | 0 <= j < |before.rows| :: Kept(before, Replaced(s, hit, chat, resend), msg, j)
  {
    var s' := Replaced(s, hit, chat, resend);
    forall j | 0 <= j < |before.rows|
      ensures s'.rows[j] == before.rows[j].(dst := s'.rows[j].dst)
      ensures s'.rows[j].dst == before.rows[j].dst || before.next <= s'.rows[j].dst.id < s'.next
      ensures Kept(before, s', msg, j)
    {
      RowKept(before, s, msg, hit, r, chat, resend, j);
    }
  }

  lemma {:induction false} RowKept(
      before: State, s: State, msg: Key, hit: Hit, r: nat, chat: string, resend: Resend, j: nat)
    requires Ready(before, msg) && SameRows(before, s)
    requires r < |before.rows| && before.rows[r].id == hit.row
    requires Touches(before.rows[r], msg, None) && Opposite(before.rows[r], msg) == hit.end
    requires before.rows[r].src == msg ==> hit.end.chat == chat
    requires hit.end.platform == Bale
    requires j < |before.rows| && Kept(before, s, msg, j)
    ensures var s' := Replaced(s, hit, chat, resend);
            && |s'.rows| == |before.rows|
            && s'.rows[j] == before.rows[j].(dst := s'.rows[j].dst)
            && (s'.rows[j].dst == before.rows[j].dst || before.next <= s'.rows[j].dst.id < s'.next)
            && Kept(before, s', msg, j)
  {
    var copy := Key(Bale, hit.end.chat, s.next);
    RedirectedAt(s.rows, hit.row, copy, j);
    assert before.rows[j].id == hit.row <==> j == r;
    if resend.Sent? && resend.sent > 0 {
      assert Key(Bale, chat, s.next) in Created(chat, s.next, resend.sent);
      assert hit.end.id < before.next;
      if j != r && before.rows[j].src == msg {
        assert Touches(before.rows[j], msg, None) && Opposite(before.rows[j], msg) == before.rows[j].dst;
        assert before.rows[j].dst != hit.end;
      }
    }
  }

  lemma {:induction false} TurnsKeep(s: State, msg: Key, pairs: map<int, Pair>, fates: nat -> Fate, n: nat)
    requires Ready(s, msg) && n <= |OtherSide(s.rows, msg, None)|
    requires forall j | 0 <= j < |s.rows| && s.rows[j].src == msg :: InPlace(s.rows[j], pairs)
    ensures var t := Turns(s, OtherSide(s.rows, msg, None), pairs, fates, n).0;
            SameRows(s, t) && forall j | 0 <= j < |s.rows| :: Kept(s, t, msg, j)
  {
    if n > 0 {
      hide Ready;
      hide SameRows;
      hide Replaced;
      hide Kept;
      hide OtherSide;
      var hits := OtherSide(s.rows, msg, None);
      TurnsKeep(s, msg, pairs, fates, n - 1);
      var (t, going) := Turns(s, hits, pairs, fates, n - 1);
      var hit := hits[n - 1];
      if going && Serves(hit, pairs) && fates(n - 1).Refused? {
        var r := HitRow(s.rows, msg, hit);
        ReplacementKeeps(s, t, msg, hit, r, pairs[hit.pair].baleChat, fates(n - 1).resend);
      }
    } else {
      NothingDone(s, msg);
    }
  }

  lemma {:induction false} NothingDone(s: State, msg: Key)
    ensures SameRows(s, s) && forall j | 0 <= j < |s.rows| :: Kept(s, s, msg, j)
  {
  }

  /**
   An edit never loses the copy: whatever call fails, and even when an exception leaves the
   loop half-way, every row whose source is the edited message and whose copy existed still
   points to a copy that exists, and nothing else of any row has changed.
   */
  lemma {:induction false} EditKeepsCopies(s: State, msg: Key, pairs: map<int, Pair>, fates: nat -> Fate, j: nat)
    requires Ready(s, msg)
    requires forall i | 0 <= i < |s.rows| && s.rows[i].src == msg :: InPlace(s.rows[i], pairs)
    requires j < |s.rows| && s.rows[j].src == msg && s.rows[j].dst in s.live
    ensures var hits := OtherSide(s.rows, msg, None);
            var t := Turns(s, hits, pairs, fates, |hits|).0;
            |t.rows| == |s.rows| && t.rows[j] == s.rows[j].(dst := t.rows[j].dst) && t.rows[j].dst in t.live
  {
    hide Ready;
    hide Turns;
    TurnsKeep(s, msg, pairs, fates, |OtherSide(s.rows, msg, None)|);
    assert Kept(s, Turns(s, OtherSide(s.rows, msg, None), pairs, fates, |OtherSide(s.rows, msg, None)|).0, msg, j);
  }

  // ------------------------------------------------ any sequence of edits

  /**
   Row ids are their own, a copy is in no other row, copies of Telegram messages are in Bale,
   and no fresh id is in use.
   */
  ghost predicate Sound(s: State)
  {
    && (forall i, j | 0 <= i < j < |s.rows| :: s.rows[i].id != s.rows[j].id)
    && (forall i, j | 0 <= i < |s.rows| && 0 <= j < |s.rows| && i != j :: CopyApart(s.rows[i], s.rows[j]))
    && (forall i | 0 <= i < |s.rows| :: s.rows[i].dst.id < s.next && s.rows[i].src.id < s.next)
    && (forall i | 0 <= i < |s.rows| && s.rows[i].src.platform == Tg :: s.rows[i].dst.platform == Bale)
    && (forall k | k in s.live :: k.id < s.next)
  }

  predicate CopyApart(row: Row, other: Row)
  {
    row.dst != other.src && row.dst != other.dst
  }

  /** Every copy of a Telegram message is where `pair_send` wrote it. */
  ghost predicate AllInPlace(s: State, pairs: map<int, Pair>)
  {
    forall i | 0 <= i < |s.rows| && s.rows[i].src.platform == Tg :: InPlace(s.rows[i], pairs)
  }

  lemma {:induction false} SoundIsReady(s: State, msg: Key)
    requires Sound(s)
    ensures Ready(s, msg)
  {
    forall i, j | 0 <= i < j < |s.rows| && Touches(s.rows[i], msg, None) && Touches(s.rows[j], msg, None)
      ensures Opposite(s.rows[i], msg) != Opposite(s.rows[j], msg)
    {
      assert CopyApart(s.rows[i], s.rows[j]) && CopyApart(s.rows[j], s.rows[i]);
    }
  }

  lemma {:induction false} ReplacementKeepsSound(s: State, hit: Hit, chat: string, resend: Resend)
    requires Sound(s)
    ensures Sound(Replaced(s, hit, chat, resend))
  {
    var t := Replaced(s, hit, chat, resend);
    if resend.Sent? && resend.sent > 0 {
      var copy := Key(Bale, hit.end.chat, s.next);
      forall j | 0 <= j < |s.rows|
        ensures t.rows[j] == if s.rows[j].id == hit.row then s.rows[j].(dst := copy) else s.rows[j]
      {
        RedirectedAt(s.rows, hit.row, copy, j);
      }
      hide Redirected;
      forall i, j | 0 <= i < |t.rows| && 0 <= j < |t.rows| && i != j
        ensures CopyApart(t.rows[i], t.rows[j])
      {
        assert CopyApart(s.rows[i], s.rows[j]);
        assert i < j ==> s.rows[i].id != s.rows[j].id;
        assert j < i ==> s.rows[j].id != s.rows[i].id;
      }
    }
  }

  /** The row of a Telegram message keeps the chat of its copy, and a copy if it had one. */
  predicate Carried(before: State, now: State, j: nat)
    requires j < |before.rows| && |now.rows| == |before.rows|
  {
    before.rows[j].src.platform == Tg ==>
      && now.rows[j].dst.chat == before.rows[j].dst.chat
      && (before.rows[j].dst in before.live ==> now.rows[j].dst in now.live)
  }

  /** A replacement of row `r` carries every row, `r` itself to its new copy. */
  lemma {:induction false} ReplacementCarries(
    before: State, s: State, msg: Key, hit: Hit, r: nat, chat: string, resend: Resend, j: nat)
    requires Sound(before) && SameRows(before, s) && msg.platform == Tg && hit.end.platform == Bale
    requires r < |before.rows| && before.rows[r].id == hit.row
    requires Touches(before.rows[r], msg, None) && Opposite(before.rows[r], msg) == hit.end
    requires before.rows[r].src == msg ==> hit.end.chat == chat
    requires j < |before.rows| && Carried(before, s, j)
    ensures |Replaced(s, hit, chat, resend).rows| == |before.rows| && Carried(before, Replaced(s, hit, chat, resend), j)
  {
    var copy := Key(Bale, hit.end.chat, s.next);
    RedirectedAt(s.rows, hit.row, copy, j);
    assert j < r ==> before.rows[j].id != before.rows[r].id;
    assert r < j ==> before.rows[r].id != before.rows[j].id;
    if resend.Sent? && resend.sent > 0 {
      assert Key(Bale, chat, s.next) in Created(chat, s.next, resend.sent);
      assert j != r ==> CopyApart(before.rows[j], before.rows[r]);
    }
  }

  /** A state a run of edits can be in after `before`. */
  ghost predicate Follows(before: State, now: State)
  {
    && Sound(now) && SameRows(before, now)
    && forall j | 0 <= j < |before.rows| :: Carried(before, now, j)
  }

  lemma {:induction false} FollowsItself(s: State)
    requires Sound(s)
    ensures Follows(s, s)
  {
    hide Sound;
  }

  lemma {:induction false} FollowsSoundly(before: State, now: State)
    requires Follows(before, now)
    ensures Sound(now)
  {
    hide Sound;
  }

  lemma {:induction false} TurnsFollow(s: State, msg: Key, pairs: map<int, Pair>, fates: nat -> Fate, n: nat)
    requires Sound(s) && AllInPlace(s, pairs) && msg.platform == Tg && n <= |OtherSide(s.rows, msg, None)|
    ensures Follows(s, Turns(s, OtherSide(s.rows, msg, None), pairs, fates, n).0)
  {
    hide Follows;
    hide Replaced;
    hide Sound;
    hide Ready;
    hide OtherSide;
    if n == 0 {
      FollowsItself(s);
    } else {
      var hits := OtherSide(s.rows, msg, None);
      TurnsFollow(s, msg, pairs, fates, n - 1);
      var (t, going) := Turns(s, hits, pairs, fates, n - 1);
      var hit := hits[n - 1];
      if going && Serves(hit, pairs) && fates(n - 1).Refused? {
        var r := HitRow(s.rows, msg, hit);
        var chat, resend := pairs[hit.pair].baleChat, fates(n - 1).resend;
        FollowsSoundly(s, t);
        ReplacementKeepsSound(t, hit, chat, resend);
        SoundIsReady(s, msg);
        assert s.rows[r].src == msg ==> InPlace(s.rows[r], pairs);
        ReplacementFollows(s, t, msg, hit, r, chat, resend);
      }
    }
  }

  lemma {:induction false} ReplacementFollows(
      before: State, s: State, msg: Key, hit: Hit, r: nat, chat: string, resend: Resend)
    requires Sound(before) && Ready(before, msg) && Follows(before, s) && msg.platform == Tg && hit.end.platform == Bale
    requires r < |before.rows| && before.rows[r].id == hit.row
    requires Touches(before.rows[r], msg, None) && Opposite(before.rows[r], msg) == hit.end
    requires before.rows[r].src == msg ==> hit.end.chat == chat
    requires Sound(Replaced(s, hit, chat, resend))
    ensures Follows(before, Replaced(s, hit, chat, resend))
  {
    hide Sound;
    hide Ready;
    hide Replaced;
    hide Touches;
    hide Opposite;
    forall j | 0 <= j < |before.rows|
      ensures |Replaced(s, hit, chat, resend).rows| == |before.rows| &&
              Carried(before, Replaced(s, hit, chat, resend), j)
    {
      ReplacementCarries(before, s, msg, hit, r, chat, resend, j);
    }
    hide Carried;
    RowsStaySame(before, s, msg, hit, chat, resend);
  }

  lemma {:induction false} RowsStaySame(before: State, s: State, msg: Key, hit: Hit, chat: string, resend: Resend)
    requires SameRows(before, s)
    ensures SameRows(before, Replaced(s, hit, chat, resend))
  {
    var copy := Key(Bale, hit.end.chat, s.next);
    forall j | 0 <= j < |s.rows|
      ensures Redirected(s.rows, hit.row, copy)[j] ==
              if s.rows[j].id == hit.row then s.rows[j].(dst := copy) else s.rows[j]
    {
      RedirectedAt(s.rows, hit.row, copy, j);
    }
    hide Redirected;
  }

  /** One edited message, and how each call of its processing goes. */
  datatype Edit = Edit(msg: Key, fates: nat -> Fate)

  function AfterEdits(s: State, edits: seq<Edit>, pairs: map<int, Pair>): State
  {
    if edits == [] then s
    else
      var t, e := AfterEdits(s, edits[..|edits| - 1], pairs), edits[|edits| - 1];
      var hits := OtherSide(t.rows, e.msg, None);
      Turns(t, hits, pairs, e.fates, |hits|).0
  }

  lemma {:induction false} FollowsOn(a: State, b: State, c: State, pairs: map<int, Pair>)
    requires Follows(a, b) && Follows(b, c) && AllInPlace(a, pairs)
    ensures Follows(a, c) && AllInPlace(b, pairs)
  {
    hide Sound;
    forall j | 0 <= j < |a.rows|
      ensures Carried(a, c, j)
      ensures c.rows[j] == a.rows[j].(dst := c.rows[j].dst)
      ensures c.rows[j].dst == a.rows[j].dst || a.next <= c.rows[j].dst.id < c.next
      ensures b.rows[j].src.platform == Tg ==> InPlace(b.rows[j], pairs)
    {
      assert Carried(a, b, j) && Carried(b, c, j);
      assert a.rows[j].src.platform == Tg ==> InPlace(a.rows[j], pairs);
    }
  }

  lemma {:induction false} EditsFollow(s: State, edits: seq<Edit>, pairs: map<int, Pair>)
    requires Sound(s) && AllInPlace(s, pairs) && forall i | 0 <= i < |edits| :: edits[i].msg.platform == Tg
    ensures Follows(s, AfterEdits(s, edits, pairs)) && AllInPlace(AfterEdits(s, edits, pairs), pairs)
  {
    if edits == [] {
      FollowsItself(s);
    } else {
      hide Turns;
      hide OtherSide;
      hide AllInPlace;
      var e := edits[|edits| - 1];
      var t, u := AfterEdits(s, edits[..|edits| - 1], pairs), AfterEdits(s, edits, pairs);
      EditsFollow(s, edits[..|edits| - 1], pairs);
      TurnsFollow(t, e.msg, pairs, e.fates, |OtherSide(t.rows, e.msg, None)|);
      hide Follows;
      FollowsOn(s, t, u, pairs);
      FollowsSoundly(s, u);
      FollowsItself(u);
      FollowsOn(s, u, u, pairs);
    }
  }

  /**
   Over any sequence of edits of any Telegram messages, with any failures: every row of a
   Telegram message whose copy existed at the start still points to a copy that exists, in
   the same chat, and nothing else of it has changed.
   */
  lemma {:induction false} EditsKeepCopies(s: State, edits: seq<Edit>, pairs: map<int, Pair>, j: nat)
    requires Sound(s) && AllInPlace(s, pairs) && forall i | 0 <= i < |edits| :: edits[i].msg.platform == Tg
    requires j < |s.rows| && s.rows[j].src.platform == Tg && s.rows[j].dst in s.live
    ensures var t := AfterEdits(s, edits, pairs);
            && |t.rows| == |s.rows| && t.rows[j] == s.rows[j].(dst := t.rows[j].dst)
            && t.rows[j].dst in t.live && t.rows[j].dst.chat == s.rows[j].dst.chat
  {
    hide AfterEdits;
    hide Sound;
    EditsFollow(s, edits, pairs);
    assert Carried(s, AfterEdits(s, edits, pairs), j);
  }

  // ------------------------------------------------ the echo set and the ledger

  /** At turn `i` a replacement is attempted; it succeeds when its messages were all sent, at least one. */
  predicate Attempted(hits: seq<Hit>, pairs: map<int, Pair>, fates: nat -> Fate, i: nat)
    requires i < |hits|
  {
    Serves(hits[i], pairs) && fates(i).Refused?
  }

  predicate Succeeded(hits: seq<Hit>, pairs: map<int, Pair>, fates: nat -> Fate, i: nat)
    requires i < |hits|
  {
    Attempted(hits, pairs, fates, i) && fates(i).resend.Sent? && fates(i).resend.sent > 0
  }

  /** Turn `i` is reached: no exception left the loop before. */
  predicate Reached(hits: seq<Hit>, pairs: map<int, Pair>, fates: nat -> Fate, i: nat)
    requires i <= |hits|
  {
    forall j | 0 <= j < i :: !(Serves(hits[j], pairs) && fates(j).Raised?)
  }

  lemma {:induction false} GoingIffReached(s: State, hits: seq<Hit>, pairs: map<int, Pair>, fates: nat -> Fate, n: nat)
    requires n <= |hits|
    ensures Turns(s, hits, pairs, fates, n).1 <==> Reached(hits, pairs, fates, n)
  {
    if n > 0 {
      GoingIffReached(s, hits, pairs, fates, n - 1);
    }
  }

  /**
   The echo of a copy's deletion is ignored afterwards exactly when its replacement was
   sent; an attempt that failed leaves no mark, and a copy that was edited in place, or not
   reached, keeps the mark it had. Hits name different copies, so each has one turn.
   */
  lemma {:induction false} IgnoredExactly(
      s: State, hits: seq<Hit>, pairs: map<int, Pair>, fates: nat -> Fate, n: nat, i: nat)
    requires n <= |hits| && i < |hits|
    requires forall a, b | 0 <= a < b < |hits| :: hits[a].end != hits[b].end
    ensures hits[i].end in Turns(s, hits, pairs, fates, n).0.ignore <==>
            if i < n && Reached(hits, pairs, fates, i) && Attempted(hits, pairs, fates, i)
            then Succeeded(hits, pairs, fates, i)
            else hits[i].end in s.ignore
  {
    hide Turn;
    hide Reached;
    hide Attempted;
    hide Succeeded;
    if n > 0 {
      IgnoredExactly(s, hits, pairs, fates, n - 1, i);
      GoingIffReached(s, hits, pairs, fates, n - 1);
      TurnIgnores(Turns(s, hits, pairs, fates, n - 1).0, hits, pairs, fates, n - 1, hits[i].end);
    }
  }

  lemma {:induction false} TurnIgnores(
      s: State, hits: seq<Hit>, pairs: map<int, Pair>, fates: nat -> Fate, n: nat, k: Key)
    requires n < |hits|
    ensures k in Turn(s, hits[n], pairs, fates(n)).0.ignore <==>
            if k == hits[n].end && Attempted(hits, pairs, fates, n) then Succeeded(hits, pairs, fates, n)
            else k in s.ignore
  {
    hide Created;
    hide Redirected;
  }

  /** Nothing else becomes ignored. */
  lemma {:induction false} OthersNotIgnored(
      s: State, hits: seq<Hit>, pairs: map<int, Pair>, fates: nat -> Fate, n: nat, k: Key)
    requires n <= |hits| && forall i | 0 <= i < |hits| :: hits[i].end != k
    ensures k in Turns(s, hits, pairs, fates, n).0.ignore <==> k in s.ignore
  {
    if n > 0 {
      OthersNotIgnored(s, hits, pairs, fates, n - 1, k);
    }
  }

  // ------------------------------------------------ every new copy is marked in the ledger

  /** How many of the first `n` turns put a new copy in place. */
  function Successes(hits: seq<Hit>, pairs: map<int, Pair>, fates: nat -> Fate, n: nat): nat
    requires n <= |hits|
  {
    if n == 0 then 0
    else
      Successes(hits, pairs, fates, n - 1)
      + (if Reached(hits, pairs, fates, n - 1) && Succeeded(hits, pairs, fates, n - 1) then 1 else 0)
  }

  /** Messages in Bale made between `lo` and `hi`, each once, in the order in which they were made. */
  predicate FreshMarks(marks: seq<Key>, lo: nat, hi: nat)
  {
    && (forall i | 0 <= i < |marks| :: marks[i].platform == Bale && lo <= marks[i].id < hi)
    && (forall i, j | 0 <= i < j < |marks| :: marks[i].id < marks[j].id)
  }

  /** The marks written since `before`: fresh messages, among them every new destination. */
  ghost predicate MarksFollow(before: State, now: State)
  {
    && before.marked <= now.marked && before.next <= now.next && |now.rows| == |before.rows|
    && FreshMarks(now.marked[|before.marked|..], before.next, now.next)
    && forall j | 0 <= j < |now.rows| && now.rows[j].dst != before.rows[j].dst ::
         now.rows[j].dst in now.marked[|before.marked|..]
  }

  lemma {:induction false} MarksOfNothing(s: State)
    ensures MarksFollow(s, s)
  {
  }

  lemma {:induction false} MarkMore(before: State, s: State, copy: Key, next: nat)
    requires before.marked <= s.marked && FreshMarks(s.marked[|before.marked|..], before.next, s.next)
    requires copy.platform == Bale && copy.id == s.next < next && before.next <= s.next
    ensures before.marked <= s.marked + [copy]
    ensures (s.marked + [copy])[|before.marked|..] == s.marked[|before.marked|..] + [copy]
    ensures FreshMarks(s.marked[|before.marked|..] + [copy], before.next, next)
  {
  }

  lemma {:induction false} ReplacementMarks(before: State, s: State, hit: Hit, chat: string, resend: Resend)
    requires MarksFollow(before, s)
    ensures MarksFollow(before, Replaced(s, hit, chat, resend))
    ensures |Replaced(s, hit, chat, resend).marked| == |s.marked| + (if resend.Sent? && resend.sent > 0 then 1 else 0)
  {
    hide Created;
    hide FreshMarks;
    var t := Replaced(s, hit, chat, resend);
    if resend.Sent? && resend.sent > 0 {
      var copy := Key(Bale, hit.end.chat, s.next);
      MarkMore(before, s, copy, t.next);
      forall j | 0 <= j < |t.rows|
        ensures t.rows[j].dst == s.rows[j].dst || t.rows[j].dst == copy
      {
        RedirectedAt(s.rows, hit.row, copy, j);
      }
      hide Redirected;
    } else {
      MarksLater(before, s, t.next);
    }
  }

  lemma {:induction false} MarksLater(before: State, s: State, next: nat)
    requires |before.marked| <= |s.marked| && s.next <= next
    requires FreshMarks(s.marked[|before.marked|..], before.next, s.next)
    ensures FreshMarks(s.marked[|before.marked|..], before.next, next)
  {
  }

  /** One edit writes as many marks as turns put a new copy in place. */
  lemma {:induction false} TurnsMark(
      before: State, s: State, hits: seq<Hit>, pairs: map<int, Pair>, fates: nat -> Fate, n: nat)
    requires MarksFollow(before, s) && n <= |hits|
    ensures var t := Turns(s, hits, pairs, fates, n).0;
            MarksFollow(before, t) && |t.marked| == |s.marked| + Successes(hits, pairs, fates, n)
  {
    hide MarksFollow;
    hide Replaced;
    hide Reached;
    if n > 0 {
      TurnsMark(before, s, hits, pairs, fates, n - 1);
      GoingIffReached(s, hits, pairs, fates, n - 1);
      var (t, going) := Turns(s, hits, pairs, fates, n - 1);
      var hit := hits[n - 1];
      if going && Attempted(hits, pairs, fates, n - 1) {
        ReplacementMarks(before, t, hit, pairs[hit.pair].baleChat, fates(n - 1).resend);
      }
    }
  }

  function AllSuccesses(s: State, edits: seq<Edit>, pairs: map<int, Pair>): nat
  {
    if edits == [] then 0
    else
      var init, e := edits[..|edits| - 1], edits[|edits| - 1];
      var hits := OtherSide(AfterEdits(s, init, pairs).rows, e.msg, None);
      AllSuccesses(s, init, pairs) + Successes(hits, pairs, e.fates, |hits|)
  }

  /**
   Over any sequence of edits, with any failures: the ledger gets one mark for each copy put
   in place, each for a fresh message in Bale and none twice; and whatever a row points to
   that it did not point to before is among them. So no new copy is without its token.
   */
  lemma {:induction false} ReplacedAreMarked(s: State, edits: seq<Edit>, pairs: map<int, Pair>)
    ensures var t := AfterEdits(s, edits, pairs);
            && s.marked <= t.marked && |t.marked| == |s.marked| + AllSuccesses(s, edits, pairs)
            && FreshMarks(t.marked[|s.marked|..], s.next, t.next)
            && |t.rows| == |s.rows|
            && forall j | 0 <= j < |s.rows| && t.rows[j].dst != s.rows[j].dst ::
                 t.rows[j].dst in t.marked[|s.marked|..]
  {
    EditsMark(s, edits, pairs);
    hide AfterEdits;
    hide AllSuccesses;
    hide FreshMarks;
  }

  lemma {:induction false} EditsMark(s: State, edits: seq<Edit>, pairs: map<int, Pair>)
    ensures var t := AfterEdits(s, edits, pairs);
            MarksFollow(s, t) && |t.marked| == |s.marked| + AllSuccesses(s, edits, pairs)
  {
    hide MarksFollow;
    hide Turns;
    hide Successes;
    hide OtherSide;
    if edits == [] {
      MarksOfNothing(s);
    } else {
      var init, e := edits[..|edits| - 1], edits[|edits| - 1];
      var t := AfterEdits(s, init, pairs);
      EditsMark(s, init, pairs);
      var hits := OtherSide(t.rows, e.msg, None);
      TurnsMark(s, t, hits, pairs, e.fates, |hits|);
    }
  }

  // ------------------------------------------------ the direction of an edit

  /** Which copies an edit in Telegram reaches, by the names of the modes: not those of a "bale2tg" or unknown pair. */
  lemma {:induction false} ModesEdit(hit: Hit, pairs: map<int, Pair>)
    ensures hit.pair !in pairs || hit.end.platform == Tg ==> !Serves(hit, pairs)
    ensures hit.pair in pairs && hit.end.platform == Bale ==>
              match pairs[hit.pair].mode
              case Tg2Bale => Serves(hit, pairs)
              case Both => Serves(hit, pairs)
              case Bale2Tg => !Serves(hit, pairs)
  {
  }

  /** An edit follows the direction its message was mirrored in: the copy a pair found for its chat made is served. */
  lemma {:induction false} MirroredIsServed(
      rows: seq<Row>, row: Row, pairs: map<int, Pair>, table: seq<Pair>, tgChat: Option<int>)
    requires row in rows && row.src.platform == Tg && row.dst.platform == Bale
    requires row.pair in pairs && pairs[row.pair] in ForTg(table, tgChat)
    ensures exists hit :: hit in OtherSide(rows, row.src, None) && hit.end == row.dst && Serves(hit, pairs)
  {
    hide OtherSide;
    ForTgExact(table, tgChat, pairs[row.pair]);
    assert Joins(row, row.src, row.dst, row.pair);
    assert Linked(rows, row.src, row.dst, row.pair);
    LookupExact(rows, row.src, None, row.dst, row.pair);
    var hits := OtherSide(rows, row.src, None);
    var i :| 0 <= i < |hits| && hits[i].end == row.dst && hits[i].pair == row.pair;
    assert hits[i] in hits;
  }

  // ------------------------------------------------ the edited message must be the source

  /**
   A replacement always overwrites the row's destination, so the new copy is linked to the
   edited message exactly when that message is the row's source. Editing a message the
   bridge itself made turns its row into one between two Bale messages.
   */
  lemma {:induction false} ReplacementLinksSource(
      s: State, msg: Key, hit: Hit, r: nat, chat: string, n: nat, deleted: bool)
    requires msg.platform == Tg && r < |s.rows| && n > 0
    requires s.rows[r].id == hit.row && Touches(s.rows[r], msg, None) && Opposite(s.rows[r], msg) == hit.end
    ensures var row := Replaced(s, hit, chat, Sent(n, deleted)).rows[r];
            && row.dst == Key(Bale, hit.end.chat, s.next)
            && (Joins(row, msg, row.dst, row.pair) <==> s.rows[r].src == msg)
            && (s.rows[r].src != msg ==> !Touches(row, msg, None) && row.src == hit.end)
  {
    RedirectedAt(s.rows, hit.row, Key(Bale, hit.end.chat, s.next), r);
  }

  /** To the message table this replacement is the act the pairs' rows are proved under. */
  lemma {:induction false} ReplacementIsAct(s: State, msg: Key, hit: Hit, chat: string, n: nat, deleted: bool)
    requires hit.end.platform == Bale && n > 0
    ensures Replaced(s, hit, chat, Sent(n, deleted)).rows ==
            PairSend.After(s.rows, 0, PairSend.ReplaceCopy(msg, hit, s.next)).0
  {
  }
}
