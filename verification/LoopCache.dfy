/**
 LoopCacheEngine (bridge/dbstore/loopcache.py): the one-shot ledger `sent` and the
 windowed fingerprints `sent_fp`. Tables are lists of rows in id order and a query takes
 the first matching row.
 */
module LoopCache {
  import opened Sequences
  import opened Messages

  datatype SentRow = SentRow(key: Key, createdAt: real)

  datatype FpRow = FpRow(id: nat, key: FpKey, createdAt: real)

  datatype Ledger = Ledger(sent: seq<SentRow>, fps: seq<FpRow>)

  /** The first row of `sent` for `key`, or the length. */
  function FindSent(sent: seq<SentRow>, key: Key): (i: nat)
    ensures i <= |sent|
    ensures i < |sent| ==> sent[i].key == key
    ensures forall j | 0 <= j < i :: sent[j].key != key
  {
    FirstIndex(sent, (row: SentRow) => row.key == key)
  }

  /** The first fingerprint row for `key` younger than `since`, or the length. */
  function FindFp(fps: seq<FpRow>, key: FpKey, since: real): (i: nat)
    ensures i <= |fps|
    ensures i < |fps| ==> fps[i].key == key && fps[i].createdAt > since
    ensures forall j | 0 <= j < i :: fps[j].key != key || fps[j].createdAt <= since
  {
    FirstIndex(fps, (row: FpRow) => row.key == key && row.createdAt > since)
  }

  function Marked(l: Ledger, key: Key, now: real): Ledger
  {
    l.(sent := l.sent + [SentRow(key, now)])
  }

  predicate Known(l: Ledger, key: Key)
  {
    FindSent(l.sent, key) < |l.sent|
  }

  /** `was_sent` forgets the row it finds. */
  function Consumed(l: Ledger, key: Key): Ledger
  {
    var i := FindSent(l.sent, key);
    if i < |l.sent| then l.(sent := RemoveAt(l.sent, i)) else l
  }

  function FpAdded(l: Ledger, id: nat, key: FpKey, now: real): Ledger
  {
    l.(fps := l.fps + [FpRow(id, key, now)])
  }

  predicate FpKnown(l: Ledger, key: FpKey, now: real, window: real)
  {
    FindFp(l.fps, key, now - window) < |l.fps|
  }

  function FpConsumed(l: Ledger, key: FpKey, now: real, window: real): Ledger
  {
    var i := FindFp(l.fps, key, now - window);
    if i < |l.fps| then l.(fps := RemoveAt(l.fps, i)) else l
  }

  function YoungSent(sent: seq<SentRow>, cutoff: real): seq<SentRow>
  {
    if sent == [] then []
    else
      var init := YoungSent(sent[..|sent| - 1], cutoff);
      if sent[|sent| - 1].createdAt < cutoff then init else init + [sent[|sent| - 1]]
  }

  function YoungFps(fps: seq<FpRow>, cutoff: real): seq<FpRow>
  {
    if fps == [] then []
    else
      var init := YoungFps(fps[..|fps| - 1], cutoff);
      if fps[|fps| - 1].createdAt < cutoff then init else init + [fps[|fps| - 1]]
  }

  function PrunedAt(l: Ledger, now: real, maxAge: real): Ledger
  {
    Ledger(YoungSent(l.sent, now - maxAge), YoungFps(l.fps, now - maxAge))
  }

  class LoopCache {
    var sent: seq<SentRow>
    var fps: seq<FpRow>
    /** AUTOINCREMENT of `sent_fp`. */
    var nextFp: nat

    function State(): Ledger
      reads this
    {
      Ledger(sent, fps)
    }

    constructor ()
      ensures State() == Ledger([], [])
    {
      sent, fps, nextFp := [], [], 0;
    }

    method MarkSent(key: Key, now: real)
      modifies this
      ensures State() == Marked(old(State()), key, now) && nextFp == old(nextFp)
    {
      sent := sent + [SentRow(key, now)];
    }

    method WasSent(key: Key) returns (known: bool)
      modifies this
      ensures known == old(Known(State(), key))
      ensures State() == Consumed(old(State()), key) && nextFp == old(nextFp)
    {
      var i := FindSent(sent, key);
      if i < |sent| {
        sent := RemoveAt(sent, i);
        return true;
      }
      return false;
    }

    method AddFp(key: FpKey, now: real)
      modifies this
      ensures State() == FpAdded(old(State()), old(nextFp), key, now) && nextFp == old(nextFp) + 1
    {
      fps := fps + [FpRow(nextFp, key, now)];
      nextFp := nextFp + 1;
    }

    method CheckFp(key: FpKey, now: real, window: real) returns (known: bool)
      modifies this
      ensures known == old(FpKnown(State(), key, now, window))
      ensures State() == FpConsumed(old(State()), key, now, window) && nextFp == old(nextFp)
    {
      var i := FindFp(fps, key, now - window);
      if i < |fps| {
        fps := RemoveAt(fps, i);
        return true;
      }
      return false;
    }

    method Prune(now: real, maxAge: real)
      modifies this
      ensures State() == PrunedAt(old(State()), now, maxAge) && nextFp == old(nextFp)
    {
      var cutoff := now - maxAge;
      sent := YoungSent(sent, cutoff);
      fps := YoungFps(fps, cutoff);
    }
  }

  // ------------------------------------------------ runs

  datatype Op =
    | Mark(sentKey: Key, now: real)
    | Seen(sentKey: Key)
    | Add(key: FpKey, now: real)
    | Check(key: FpKey, now: real, window: real)
    | Prune(now: real, maxAge: real)

  /** The ledger after `op`, which is operation number `n` of the run (and names the row it may add). */
  function Apply(l: Ledger, op: Op, n: nat): Ledger
  {
    match op
    case Mark(key, now) => Marked(l, key, now)
    case Seen(key) => Consumed(l, key)
    case Add(key, now) => FpAdded(l, n, key, now)
    case Check(key, now, window) => FpConsumed(l, key, now, window)
    case Prune(now, maxAge) => PrunedAt(l, now, maxAge)
  }

  function Run(ops: seq<Op>): Ledger
  {
    if ops == [] then Ledger([], [])
    else Apply(Run(ops[..|ops| - 1]), ops[|ops| - 1], |ops| - 1)
  }

  function CountSent(sent: seq<SentRow>, key: Key): nat
  {
    if sent == [] then 0
    else CountSent(sent[..|sent| - 1], key) + (if sent[|sent| - 1].key == key then 1 else 0)
  }

  /** Marks written for `key`. */
  function Marks(ops: seq<Op>, key: Key): nat
  {
    if ops == [] then 0
    else Marks(ops[..|ops| - 1], key) + (if ops[|ops| - 1].Mark? && ops[|ops| - 1].sentKey == key then 1 else 0)
  }

  /** Lookups of `key` that answered yes. */
  function Hits(ops: seq<Op>, key: Key): nat
  {
    if ops == [] then 0
    else
      var init, op := ops[..|ops| - 1], ops[|ops| - 1];
      Hits(init, key) + (if op.Seen? && op.sentKey == key && Known(Run(init), key) then 1 else 0)
  }

  /** Rows of `key` written before `cutoff`. */
  function CountOld(sent: seq<SentRow>, key: Key, cutoff: real): nat
  {
    if sent == [] then 0
    else
      var last := sent[|sent| - 1];
      CountOld(sent[..|sent| - 1], key, cutoff) + (if last.key == key && last.createdAt < cutoff then 1 else 0)
  }

  /** Rows of `key` that a prune found older than its limit. */
  function PrunedRows(ops: seq<Op>, key: Key): nat
  {
    if ops == [] then 0
    else
      var init, op := ops[..|ops| - 1], ops[|ops| - 1];
      PrunedRows(init, key) + (if op.Prune? then CountOld(Run(init).sent, key, op.now - op.maxAge) else 0)
  }

  lemma {:induction false} CountRemove(sent: seq<SentRow>, i: nat, key: Key)
    requires i < |sent|
    ensures CountSent(sent, key) == CountSent(RemoveAt(sent, i), key) + (if sent[i].key == key then 1 else 0)
    decreases |sent|
  {
    var n := |sent|;
    if i == n - 1 {
      RemoveLast(sent);
    } else {
      RemoveBeforeLast(sent, i);
      hide RemoveAt;
      CountRemove(sent[..n - 1], i, key);
    }
  }

  lemma {:induction false} YoungSentCount(sent: seq<SentRow>, cutoff: real, key: Key)
    ensures CountSent(YoungSent(sent, cutoff), key) + CountOld(sent, key, cutoff) == CountSent(sent, key)
  {
    if sent != [] {
      var init, last := sent[..|sent| - 1], sent[|sent| - 1];
      YoungSentCount(init, cutoff, key);
      assert (YoungSent(init, cutoff) + [last])[..|YoungSent(init, cutoff)|] == YoungSent(init, cutoff);
    }
  }

  lemma {:induction false} LedgerStep(l: Ledger, op: Op, n: nat, key: Key)
    ensures var l' := Apply(l, op, n);
            && (op.Mark? ==> CountSent(l'.sent, key) == CountSent(l.sent, key) + (if op.sentKey == key then 1 else 0))
            && (op.Seen? ==>
                (CountSent(l.sent, key) ==
                    CountSent(l'.sent, key) + (if op.sentKey == key && Known(l, key) then 1 else 0)))
            && (op.Prune? ==>
                CountSent(l'.sent, key) + CountOld(l.sent, key, op.now - op.maxAge) == CountSent(l.sent, key))
            && (op.Add? || op.Check? ==> l'.sent == l.sent)
  {
    match op
    case Mark(k, now) =>
    case Seen(k) =>
      var i := FindSent(l.sent, k);
      if i < |l.sent| {
        CountRemove(l.sent, i, key);
      }
    case Add(_, _) =>
    case Check(_, _, _) =>
    case Prune(now, maxAge) => YoungSentCount(l.sent, now - maxAge, key);
  }

  /**
   The ledger is one-shot: for every key, over every run, the rows left are the marks
   written minus the lookups that answered yes minus the rows pruned away.
   */
  lemma {:induction false} LedgerConservation(ops: seq<Op>, key: Key)
    ensures CountSent(Run(ops).sent, key) + Hits(ops, key) + PrunedRows(ops, key) == Marks(ops, key)
  {
    hide *;
    if ops == [] {
      NothingCounted(key);
    } else {
      var init, op := ops[..|ops| - 1], ops[|ops| - 1];
      LedgerConservation(init, key);
      CountsMore(ops, key);
      OpBalances(Run(init), op, |init|, key);
    }
  }

  lemma {:induction false} NothingCounted(key: Key)
    ensures CountSent(Run([]).sent, key) == Hits([], key) == PrunedRows([], key) == Marks([], key) == 0
  {
  }

  /** What the operation marks, answers yes to and prunes is what it changes. */
  lemma {:induction false} OpBalances(l: Ledger, op: Op, n: nat, key: Key)
    ensures CountSent(Apply(l, op, n).sent, key)
            + (if op.Seen? && op.sentKey == key && Known(l, key) then 1 else 0)
            + (if op.Prune? then CountOld(l.sent, key, op.now - op.maxAge) else 0)
         == CountSent(l.sent, key) + (if op.Mark? && op.sentKey == key then 1 else 0)
  {
    LedgerStep(l, op, n, key);
    hide *;
  }

  lemma {:induction false} CountsMore(ops: seq<Op>, key: Key)
    requires ops != []
    ensures var init, op := ops[..|ops| - 1], ops[|ops| - 1];
            && Run(ops) == Apply(Run(init), op, |init|)
            && Marks(ops, key) == Marks(init, key) + (if op.Mark? && op.sentKey == key then 1 else 0)
            && Hits(ops, key) ==
               Hits(init, key) + (if op.Seen? && op.sentKey == key && Known(Run(init), key) then 1 else 0)
            && PrunedRows(ops, key) ==
               PrunedRows(init, key) + (if op.Prune? then CountOld(Run(init).sent, key, op.now - op.maxAge) else 0)
  {
    hide Apply;
    hide Known;
    hide CountOld;
  }

  /** So a ledger never answers yes more often than it was marked. */
  lemma {:induction false} HitsBoundedByMarks(ops: seq<Op>, key: Key)
    ensures Hits(ops, key) <= Marks(ops, key)
  {
    LedgerConservation(ops, key);
  }

  // ------------------------------------------------ fingerprints

  /** Operation `i` is a fingerprint check that answered yes. */
  predicate FpHit(ops: seq<Op>, i: nat)
    requires i < |ops|
  {
    ops[i].Check? && FpKnown(Run(ops[..i]), ops[i].key, ops[i].now, ops[i].window)
  }

  /** The operation that added the row a hit consumed. */
  function ChargedTo(ops: seq<Op>, i: nat): nat
    requires i < |ops| && FpHit(ops, i)
  {
    var fps := Run(ops[..i]).fps;
    fps[FindFp(fps, ops[i].key, ops[i].now - ops[i].window)].id
  }

  /** Every row was added by the operation it is named after. */
  ghost predicate FromAdds(ops: seq<Op>, fps: seq<FpRow>)
  {
    forall r | r in fps :: r.id < |ops| && ops[r.id] == Add(r.key, r.createdAt)
  }

  ghost predicate Increasing(fps: seq<FpRow>)
  {
    forall i, j | 0 <= i < j < |fps| :: fps[i].id < fps[j].id
  }

  lemma {:induction false} YoungFpsIncreasing(fps: seq<FpRow>, cutoff: real)
    requires Increasing(fps)
    ensures forall r | r in YoungFps(fps, cutoff) :: r in fps
    ensures Increasing(YoungFps(fps, cutoff))
  {
    if fps != [] {
      var init, last := fps[..|fps| - 1], fps[|fps| - 1];
      YoungFpsIncreasing(init, cutoff);
      var young := YoungFps(init, cutoff);
      forall i | 0 <= i < |young|
        ensures young[i].id < last.id
      {
        assert young[i] in init;
      }
    }
  }

  lemma {:induction false} RemoveIncreasing(fps: seq<FpRow>, i: nat)
    requires i < |fps| && Increasing(fps)
    ensures Increasing(RemoveAt(fps, i))
    ensures forall r | r in RemoveAt(fps, i) :: r in fps && r.id != fps[i].id
  {
    var rest := RemoveAt(fps, i);
    assert forall a | 0 <= a < |rest| :: rest[a] == fps[if a < i then a else a + 1];
  }

  lemma {:induction false} AddIncreasing(fps: seq<FpRow>, row: FpRow)
    requires Increasing(fps) && forall r | r in fps :: r.id < row.id
    ensures Increasing(fps + [row])
  {
    assert forall i | 0 <= i < |fps| :: fps[i] in fps;
  }

  /** No operation invents rows: each is an old one or the one this operation adds. */
  lemma {:induction false} RowsAfter(l: Ledger, op: Op, n: nat)
    requires Increasing(l.fps) && forall r | r in l.fps :: r.id < n
    ensures Increasing(Apply(l, op, n).fps)
    ensures forall r | r in Apply(l, op, n).fps :: r in l.fps || (op.Add? && r == FpRow(n, op.key, op.now))
  {
    hide Increasing;
    if op.Add? {
      AddIncreasing(l.fps, FpRow(n, op.key, op.now));
    } else if op.Check? {
      var i := FindFp(l.fps, op.key, op.now - op.window);
      if i < |l.fps| {
        RemoveIncreasing(l.fps, i);
      }
    } else if op.Prune? {
      YoungFpsIncreasing(l.fps, op.now - op.maxAge);
    }
  }

  lemma {:induction false} RowsComeFromAdds(ops: seq<Op>)
    ensures FromAdds(ops, Run(ops).fps) && Increasing(Run(ops).fps)
  {
    if ops != [] {
      hide Apply;
      hide Increasing;
      hide FromAdds;
      var init, op := ops[..|ops| - 1], ops[|ops| - 1];
      RowsComeFromAdds(init);
      RowsAfter(Run(init), op, |init|);
      assert init + [op] == ops;
      FromAddsOn(init, op, Run(init).fps, Run(ops).fps);
    }
  }

  lemma {:induction false} FromAddsOn(init: seq<Op>, op: Op, before: seq<FpRow>, fps: seq<FpRow>)
    requires FromAdds(init, before)
    requires forall r | r in fps :: r in before || (op.Add? && r == FpRow(|init|, op.key, op.now))
    ensures FromAdds(init + [op], fps)
  {
  }

  /** The hit at `i` removes the row it is charged to. */
  lemma {:induction false} HitRemovesRow(ops: seq<Op>, i: nat)
    requires i < |ops| && FpHit(ops, i)
    ensures ChargedTo(ops, i) < i
    ensures forall r | r in Run(ops[..i + 1]).fps :: r.id != ChargedTo(ops, i)
  {
    hide Increasing;
    RowsComeFromAdds(ops[..i]);
    assert ops[..i + 1][..i] == ops[..i];
    var fps := Run(ops[..i]).fps;
    RemoveIncreasing(fps, FindFp(fps, ops[i].key, ops[i].now - ops[i].window));
  }

  lemma {:induction false} PrefixStep(ops: seq<Op>, n: nat)
    requires n < |ops|
    ensures Run(ops[..n + 1]) == Apply(Run(ops[..n]), ops[n], n)
  {
    assert ops[..n + 1][..n] == ops[..n];
  }

  /** A row consumed by operation `i` never comes back. */
  lemma {:induction false} ConsumedRowsStayAway(ops: seq<Op>, i: nat, n: nat)
    requires i < n <= |ops| && FpHit(ops, i)
    ensures forall r | r in Run(ops[..n]).fps :: r.id != ChargedTo(ops, i)
    decreases n
  {
    hide Apply;
    hide Run;
    hide Increasing;
    hide FpHit;
    HitRemovesRow(ops, i);
    if n - 1 > i {
      hide ChargedTo;
      ConsumedRowsStayAway(ops, i, n - 1);
      RowsComeFromAdds(ops[..n - 1]);
      PrefixStep(ops, n - 1);
      RowsAfter(Run(ops[..n - 1]), ops[n - 1], n - 1);
    }
  }

  /**
   The second layer only drops what the bridge posted: each fingerprint hit is charged to an
   earlier registration of the same fingerprint, less than `window` old, and no two hits
   are charged to the same registration.
   */
  lemma {:induction false} FingerprintHitsAreCharged(ops: seq<Op>, i: nat)
    requires i < |ops| && FpHit(ops, i)
    ensures var j := ChargedTo(ops, i);
            && j < i && ops[j].Add? && ops[j].key == ops[i].key
            && ops[i].now - ops[j].now < ops[i].window
    ensures forall k: nat | i < k < |ops| && FpHit(ops, k) :: ChargedTo(ops, k) != ChargedTo(ops, i)
  {
    RowsComeFromAdds(ops[..i]);
    var fps := Run(ops[..i]).fps;
    var row := fps[FindFp(fps, ops[i].key, ops[i].now - ops[i].window)];
    assert row in fps;
    forall k: nat | i < k < |ops| && FpHit(ops, k)
      ensures ChargedTo(ops, k) != ChargedTo(ops, i)
    {
      ConsumedRowsStayAway(ops, i, k);
      var later := Run(ops[..k]).fps;
      assert later[FindFp(later, ops[k].key, ops[k].now - ops[k].window)] in later;
    }
  }

  // ------------------------------------------------ how often a fingerprint is recognised

  function CountFps(fps: seq<FpRow>, key: FpKey): nat
  {
    if fps == [] then 0
    else CountFps(fps[..|fps| - 1], key) + (if fps[|fps| - 1].key == key then 1 else 0)
  }

  /** Registrations of `key`. */
  function FpAdds(ops: seq<Op>, key: FpKey): nat
  {
    if ops == [] then 0
    else FpAdds(ops[..|ops| - 1], key) + (if ops[|ops| - 1].Add? && ops[|ops| - 1].key == key then 1 else 0)
  }

  /** Checks of `key` that answered yes. */
  function FpHits(ops: seq<Op>, key: FpKey): nat
  {
    if ops == [] then 0
    else
      var init, op := ops[..|ops| - 1], ops[|ops| - 1];
      FpHits(init, key)
      + (if op.Check? && op.key == key && FpKnown(Run(init), op.key, op.now, op.window) then 1 else 0)
  }

  lemma {:induction false} CountFpsAppend(fps: seq<FpRow>, row: FpRow, key: FpKey)
    ensures CountFps(fps + [row], key) == CountFps(fps, key) + (if row.key == key then 1 else 0)
  {
    assert (fps + [row])[..|fps|] == fps;
  }

  lemma {:induction false} CountFpsRemove(fps: seq<FpRow>, i: nat, key: FpKey)
    requires i < |fps|
    ensures CountFps(fps, key) == CountFps(RemoveAt(fps, i), key) + (if fps[i].key == key then 1 else 0)
    decreases |fps|
  {
    var n := |fps| - 1;
    if i == n {
      RemoveLast(fps);
    } else {
      RemoveBeforeLast(fps, i);
      hide RemoveAt;
      CountFpsRemove(fps[..n], i, key);
      CountFpsAppend(RemoveAt(fps[..n], i), fps[n], key);
    }
  }

  /** Rows of `key` written before `cutoff`. */
  function CountOldFps(fps: seq<FpRow>, key: FpKey, cutoff: real): nat
  {
    if fps == [] then 0
    else
      var last := fps[|fps| - 1];
      CountOldFps(fps[..|fps| - 1], key, cutoff) + (if last.key == key && last.createdAt < cutoff then 1 else 0)
  }

  /** Rows of `key` that a prune found older than its limit. */
  function PrunedFps(ops: seq<Op>, key: FpKey): nat
  {
    if ops == [] then 0
    else
      var init, op := ops[..|ops| - 1], ops[|ops| - 1];
      PrunedFps(init, key) + (if op.Prune? then CountOldFps(Run(init).fps, key, op.now - op.maxAge) else 0)
  }

  lemma {:induction false} YoungFpsCount(fps: seq<FpRow>, cutoff: real, key: FpKey)
    ensures CountFps(YoungFps(fps, cutoff), key) + CountOldFps(fps, key, cutoff) == CountFps(fps, key)
  {
    if fps != [] {
      YoungFpsCount(fps[..|fps| - 1], cutoff, key);
      CountFpsAppend(YoungFps(fps[..|fps| - 1], cutoff), fps[|fps| - 1], key);
    }
  }

  lemma {:induction false} FpStep(l: Ledger, op: Op, n: nat, key: FpKey)
    ensures CountFps(Apply(l, op, n).fps, key)
            + (if op.Check? && op.key == key && FpKnown(l, op.key, op.now, op.window) then 1 else 0)
            + (if op.Prune? then CountOldFps(l.fps, key, op.now - op.maxAge) else 0)
         == CountFps(l.fps, key) + (if op.Add? && op.key == key then 1 else 0)
  {
    hide CountFps;
    hide CountOldFps;
    hide YoungFps;
    hide FpConsumed;
    hide FpKnown;
    hide FindSent;
    match op
    case Mark(_, _) =>
    case Seen(_) =>
    case Add(k, now) => CountFpsAppend(l.fps, FpRow(n, k, now), key);
    case Check(k, now, window) => FpConsumedCounts(l, k, now, window, key);
    case Prune(now, maxAge) => YoungFpsCount(l.fps, now - maxAge, key);
  }

  lemma {:induction false} FpConsumedCounts(l: Ledger, k: FpKey, now: real, window: real, key: FpKey)
    ensures CountFps(FpConsumed(l, k, now, window).fps, key) + (if k == key && FpKnown(l, k, now, window) then 1 else 0)
         == CountFps(l.fps, key)
  {
    hide CountFps;
    var i := FindFp(l.fps, k, now - window);
    if i < |l.fps| {
      CountFpsRemove(l.fps, i, key);
    }
  }

  lemma {:induction false} FpCountsMore(ops: seq<Op>, key: FpKey)
    requires ops != []
    ensures var init, op := ops[..|ops| - 1], ops[|ops| - 1];
            && Run(ops) == Apply(Run(init), op, |init|)
            && FpAdds(ops, key) == FpAdds(init, key) + (if op.Add? && op.key == key then 1 else 0)
            && FpHits(ops, key) == FpHits(init, key)
               + (if op.Check? && op.key == key && FpKnown(Run(init), op.key, op.now, op.window) then 1 else 0)
            && PrunedFps(ops, key) ==
               PrunedFps(init, key) + (if op.Prune? then CountOldFps(Run(init).fps, key, op.now - op.maxAge) else 0)
  {
    hide Apply;
    hide FpKnown;
    hide CountOldFps;
  }

  lemma {:induction false} NoFpsCounted(key: FpKey)
    ensures CountFps(Run([]).fps, key) == FpHits([], key) == PrunedFps([], key) == FpAdds([], key) == 0
  {
  }

  /**
   For every fingerprint, over every run: the rows left are the registrations minus the
   checks that answered yes minus the rows a prune found older than its limit. So the second
   layer never drops more messages of a content than the bridge posted.
   */
  lemma {:induction false} FpConservation(ops: seq<Op>, key: FpKey)
    ensures CountFps(Run(ops).fps, key) + FpHits(ops, key) + PrunedFps(ops, key) == FpAdds(ops, key)
  {
    hide *;
    if ops == [] {
      NoFpsCounted(key);
    } else {
      var init, op := ops[..|ops| - 1], ops[|ops| - 1];
      FpConservation(init, key);
      FpCountsMore(ops, key);
      FpStep(Run(init), op, |init|, key);
    }
  }
}
