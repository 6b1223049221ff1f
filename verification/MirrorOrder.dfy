/**
 The order of the two FIFO queues (bridge/transfer/queueing.py): the jobs of a platform are
 taken in the order in which they were put, so its messages are mirrored in the order of
 their events.
 */
module MirrorOrder {
  import opened Sequences
  import opened Messages
  import opened MirrorProtocol
  import opened MirrorSafety
  import Albums
  import Sorting

  /** All jobs of a platform so far: those taken, then those waiting. */
  function Jobs(s: State, p: Platform): seq<seq<Key>>
  {
    s.TakenOf(p) + s.b.At(p).queue
  }

  /** An event of a single message of another's making arrives. */
  predicate Arrives(s: State, step: Step, k: Key)
  {
    step.Deliver? && step.i < |s.inflight| && s.inflight[step.i] == k && step.album == None && k !in s.b.tokens
  }

  /** The worker of `p` takes this job. */
  predicate Takes(s: State, step: Step, p: Platform, job: seq<Key>)
  {
    step.Take? && step.p == p && s.b.At(p).queue != [] && s.b.At(p).queue[0] == job
  }

  /** The step adds to the end of the jobs, and to no other place; `added` is the job it adds. */
  predicate JobsGrow(s: State, t: State, p: Platform, added: seq<seq<Key>>)
  {
    Jobs(t, p) == Jobs(s, p) + added && |added| <= 1
  }

  lemma {:induction false} SameJobs(s: State, t: State, p: Platform)
    requires t.TakenOf(p) == s.TakenOf(p) && t.b.At(p).queue == s.b.At(p).queue
    ensures JobsGrow(s, t, p, [])
  {
    assert Jobs(s, p) + [] == Jobs(s, p);
  }

  lemma {:induction false} OneMoreJob(s: State, t: State, p: Platform, job: seq<Key>)
    requires t.TakenOf(p) == s.TakenOf(p) && t.b.At(p).queue == s.b.At(p).queue + [job]
    ensures JobsGrow(s, t, p, [job])
  {
    assert s.TakenOf(p) + (s.b.At(p).queue + [job]) == Jobs(s, p) + [job];
  }

  /** The event of a single message puts it behind all jobs of its platform. */
  lemma {:induction false} ArrivalIsLast(s: State, step: Step, limits: Limits, k: Key)
    requires Enabled(s, step, limits) && Arrives(s, step, k)
    ensures JobsGrow(s, Next(s, step, limits), k.platform, [[k]])
  {
    OneMoreJob(s, Next(s, step, limits), k.platform, [k]);
  }

  /** A timer puts the whole album behind all jobs of its platform, in the order of its messages' ids. */
  lemma {:induction false} AlbumIsLast(s: State, p: Platform, gid: nat, limits: Limits)
    requires Enabled(s, Timer(p, gid), limits)
    ensures var items, t := Albums.Popped(s.b.At(p).albums, gid).0, Next(s, Timer(p, gid), limits);
            items != [] ==>
              exists job :: JobsGrow(s, t, p, [job]) && multiset(job) == multiset(items) && Sorting.Sorted(ById, job)
  {
    hide Albums.Popped;
    var items, t := Albums.Popped(s.b.At(p).albums, gid).0, Next(s, Timer(p, gid), limits);
    ByIdIsTotalPreorder();
    Sorting.StableSortCorrect(ById, items);
    hide Sorting.StableSort;
    hide Sorting.Sorted;
    if items != [] {
      OneMoreJob(s, t, p, Sorting.StableSort(ById, items));
    }
  }

  /** A worker takes the job that has waited longest. */
  lemma {:induction false} TakesNext(s: State, p: Platform, recognised: set<Key>, legs: seq<Leg>, limits: Limits)
    requires Enabled(s, Take(p, recognised, legs), limits)
    ensures var t, n := Next(s, Take(p, recognised, legs), limits), |s.TakenOf(p)|;
            && n < |Jobs(s, p)| && t.TakenOf(p) == s.TakenOf(p) + [Jobs(s, p)[n]] && JobsGrow(s, t, p, [])
            && t.TakenOf(Other(p)) == s.TakenOf(Other(p)) && t.b.At(Other(p)) == s.b.At(Other(p))
  {
    hide Survivors;
    hide Sift;
    var q := s.b.At(p).queue;
    assert q == [q[0]] + q[1..];
    assert s.TakenOf(p) + q == s.TakenOf(p) + [q[0]] + q[1..];
    assert Jobs(s, p) + [] == Jobs(s, p);
  }

  lemma {:induction false} DeliverGrows(s: State, i: nat, album: Option<nat>, limits: Limits, p: Platform)
    requires Enabled(s, Deliver(i, album), limits)
    ensures exists added :: JobsGrow(s, Next(s, Deliver(i, album), limits), p, added)
  {
    var k, t := s.inflight[i], Next(s, Deliver(i, album), limits);
    if k.platform == p && k !in s.b.tokens && album == None {
      ArrivalIsLast(s, Deliver(i, album), limits, k);
    } else {
      hide Albums.Fed;
      SameJobs(s, t, p);
    }
  }

  lemma {:induction false} TimerGrows(s: State, q: Platform, gid: nat, limits: Limits, p: Platform)
    requires Enabled(s, Timer(q, gid), limits)
    ensures exists added :: JobsGrow(s, Next(s, Timer(q, gid), limits), p, added)
  {
    hide Albums.Popped;
    hide Sorting.StableSort;
    var items, t := Albums.Popped(s.b.At(q).albums, gid).0, Next(s, Timer(q, gid), limits);
    if q == p && items != [] {
      OneMoreJob(s, t, p, Sorting.StableSort(ById, items));
    } else {
      SameJobs(s, t, p);
    }
  }

  /** Whatever the step, the jobs of a platform only ever grow at the end. */
  lemma {:induction false} JobsOnlyGrow(s: State, step: Step, limits: Limits, p: Platform)
    requires Enabled(s, step, limits)
    ensures exists added :: JobsGrow(s, Next(s, step, limits), p, added)
    ensures s.TakenOf(p) <= Next(s, step, limits).TakenOf(p)
    ensures Next(s, step, limits).TakenOf(p) == s.TakenOf(p) || (step.Take? && step.p == p)
  {
    hide Survivors;
    hide Received;
    hide Flushed;
    match step
    case Deliver(i, album) => DeliverGrows(s, i, album, limits, p);
    case Timer(q, gid) => TimerGrows(s, q, gid, limits, p);
    case Take(q, recognised, legs) =>
      TakesNext(s, q, recognised, legs, limits);
      if q != p {
        SameJobs(s, Next(s, step, limits), p);
      }
    case _ => SameJobs(s, Next(s, step, limits), p);
  }

  lemma {:induction false} JobsOverRuns(
      states: seq<State>, steps: seq<Step>, limits: Limits, p: Platform, m: nat, n: nat)
    requires IsRun(states, steps, limits) && m <= n <= |steps|
    ensures Jobs(states[m], p) <= Jobs(states[n], p) && states[m].TakenOf(p) <= states[n].TakenOf(p)
  {
    hide Jobs;
    hide JobsGrow;
    hide Next;
    hide Enabled;
    if m < n {
      JobsOverRuns(states, steps, limits, p, m, n - 1);
      JobsOnlyGrow(states[n - 1], steps[n - 1], limits, p);
      var added :| JobsGrow(states[n - 1], states[n], p, added);
      GrownIsLonger(states[n - 1], states[n], p, added);
      PrefixOn(Jobs(states[m], p), Jobs(states[n - 1], p), Jobs(states[n], p));
      PrefixOn(states[m].TakenOf(p), states[n - 1].TakenOf(p), states[n].TakenOf(p));
    }
  }

  lemma {:induction false} GrownIsLonger(s: State, t: State, p: Platform, added: seq<seq<Key>>)
    requires JobsGrow(s, t, p, added)
    ensures Jobs(s, p) <= Jobs(t, p)
  {
    hide Jobs;
  }

  lemma {:induction false} PrefixOn<T>(a: seq<T>, b: seq<T>, c: seq<T>)
    requires a <= b && b <= c
    ensures a <= c
  {
  }

  // ------------------------------------------------ no message is in two jobs

  /** Every message that is pending or was in a job taken. */
  function Ever(s: State): multiset<Key>
  {
    Pending(s) + (JobKeys(s.tgTaken) + JobKeys(s.baleTaken))
  }

  ghost predicate Once(s: State, k: Key)
  {
    Ever(s)[k] <= 1 && (k in Ever(s) ==> k.id < s.next)
  }

  /** The message a step creates. */
  function Created(s: State, step: Step): Option<Key>
  {
    match step
    case Post(p, chat) => Some(Key(p, chat, s.next))
    case Send(p) =>
      if s.WorkerOf(p).Busy? && s.WorkerOf(p).legs != []
      then Some(Key(Other(p), s.WorkerOf(p).legs[0].dst, s.next)) else None
    case _ => None
  }

  lemma {:induction false} SameTaken(s: State, t: State)
    requires t.tgTaken == s.tgTaken && t.baleTaken == s.baleTaken
    ensures forall x :: Ever(t)[x] + Pending(s)[x] == Ever(s)[x] + Pending(t)[x]
  {
    hide Pending;
    hide JobKeys;
  }

  lemma {:induction false} TakeMovesJob(
      s: State, p: Platform, recognised: set<Key>, legs: seq<Leg>, limits: Limits, x: Key)
    requires Enabled(s, Take(p, recognised, legs), limits)
    ensures Ever(Next(s, Take(p, recognised, legs), limits))[x] == Ever(s)[x]
  {
    hide *;
    TakeEnabled(s, p, recognised, legs, limits);
    TakePending(s, p, recognised, legs, x);
    TakenFields(s, p, recognised, legs);
    EverMoves(s, TakeJob(s, p, recognised, legs), p, s.b.At(p).queue[0], x);
  }

  lemma {:induction false} TakenFields(s: State, p: Platform, recognised: set<Key>, legs: seq<Leg>)
    requires s.b.At(p).queue != []
    ensures var t := TakeJob(s, p, recognised, legs);
            && t.TakenOf(p) == s.TakenOf(p) + [s.b.At(p).queue[0]] && t.TakenOf(Other(p)) == s.TakenOf(Other(p))
  {
    hide Survivors;
    hide Taken;
  }

  lemma {:induction false} EverMoves(s: State, t: State, p: Platform, job: seq<Key>, x: Key)
    requires t.TakenOf(p) == s.TakenOf(p) + [job] && t.TakenOf(Other(p)) == s.TakenOf(Other(p))
    requires Pending(t)[x] + multiset(job)[x] == Pending(s)[x]
    ensures Ever(t)[x] == Ever(s)[x]
  {
    hide Pending;
    hide JobKeys;
    JobKeysAppend(s.TakenOf(p), job);
  }

  lemma {:induction false} StepKeepsEver(s: State, step: Step, limits: Limits, x: Key)
    requires Enabled(s, step, limits)
    ensures Ever(Next(s, step, limits))[x] <= Ever(s)[x] + (if Created(s, step) == Some(x) then 1 else 0)
  {
    hide Pending;
    hide Ever;
    hide Received;
    hide Flushed;
    hide Survivors;
    var t := Next(s, step, limits);
    match step
    case Post(p, chat) =>
      var k := Key(p, chat, s.next);
      InflightAppend(s, k, x);
      SamePending(s.(inflight := s.inflight + [k]), t);
      SameTaken(s, t);
    case Send(p) =>
      var k := Created(s, step).value;
      InflightAppend(s, k, x);
      SamePending(s.(inflight := s.inflight + [k]), t);
      SameTaken(s, t);
    case Deliver(i, album) =>
      DeliverPending(s, i, album, limits, x);
      SameTaken(s, t);
    case Timer(p, gid) =>
      FlushedKeys(s.b.At(p), gid);
      InboxDelta(s, p, Flushed(s.b.At(p), gid), x);
      SameTaken(s, t);
    case Take(p, recognised, legs) => TakeMovesJob(s, p, recognised, legs, limits, x);
    case _ =>
      SamePending(s, t);
      SameTaken(s, t);
  }

  lemma {:induction false} CreatedIsFresh(s: State, step: Step, limits: Limits)
    requires Enabled(s, step, limits)
    ensures s.next <= Next(s, step, limits).next
    ensures Created(s, step).Some? ==> Created(s, step).value.id == s.next < Next(s, step, limits).next
  {
    hide Survivors;
  }

  lemma {:induction false} OnceOverRuns(states: seq<State>, steps: seq<Step>, limits: Limits, n: nat, k: Key)
    requires IsRun(states, steps, limits) && n <= |steps|
    ensures Once(states[n], k)
  {
    hide Next;
    hide Enabled;
    hide Ever;
    if n == 0 {
      NothingEver(k);
    } else {
      OnceOverRuns(states, steps, limits, n - 1, k);
      StepKeepsEver(states[n - 1], steps[n - 1], limits, k);
      CreatedIsFresh(states[n - 1], steps[n - 1], limits);
    }
  }

  lemma {:induction false} NothingEver(k: Key)
    ensures Ever(Start)[k] == 0
  {
    assert InboxKeys(Inbox([], [])) == multiset{};
  }

  lemma {:induction false} JobKeysConcat(a: seq<seq<Key>>, b: seq<seq<Key>>)
    ensures JobKeys(a + b) == JobKeys(a) + JobKeys(b)
  {
    hide JobKeys;
    if b == [] {
      NoJobKeys();
      assert a + b == a;
    } else {
      var init, last := b[..|b| - 1], b[|b| - 1];
      JobKeysConcat(a, init);
      assert a + b == (a + init) + [last] && b == init + [last];
      JobKeysAppend(a + init, last);
      JobKeysAppend(init, last);
      SumsAssociate(JobKeys(a), JobKeys(init), multiset(last));
    }
  }

  lemma {:induction false} NoJobKeys()
    ensures JobKeys([]) == multiset{}
  {
  }

  /** A message in two places is counted twice. */
  lemma {:induction false} TwiceInJobs(jobs: seq<seq<Key>>, x: nat, y: nat, k: Key)
    requires x < y < |jobs| && jobs[x] == [k] && jobs[y] == [k]
    ensures JobKeys(jobs)[k] >= 2
  {
    hide JobKeys;
    var a, b, c := jobs[..x], jobs[x + 1..y], jobs[y + 1..];
    assert jobs == (((a + [[k]]) + b) + [[k]]) + c;
    JobKeysConcat(((a + [[k]]) + b) + [[k]], c);
    JobKeysAppend((a + [[k]]) + b, [k]);
    JobKeysConcat(a + [[k]], b);
    JobKeysAppend(a, [k]);
  }

  lemma {:induction false} JobsAreEver(s: State, p: Platform, k: Key)
    ensures JobKeys(Jobs(s, p))[k] <= Ever(s)[k]
  {
    JobKeysConcat(s.TakenOf(p), s.b.At(p).queue);
    hide JobKeys;
  }

  /** So the job of one message has one place. */
  lemma {:induction false} OnePlace(
      states: seq<State>, steps: seq<Step>, limits: Limits, n: nat, p: Platform, x: nat, y: nat, k: Key)
    requires IsRun(states, steps, limits) && n <= |steps|
    requires x < |Jobs(states[n], p)| && y < |Jobs(states[n], p)|
    requires Jobs(states[n], p)[x] == [k] && Jobs(states[n], p)[y] == [k]
    ensures x == y
  {
    OnceOverRuns(states, steps, limits, n, k);
    JobsAreEver(states[n], p, k);
    hide JobKeys;
    hide Ever;
    hide Jobs;
    if x < y {
      TwiceInJobs(Jobs(states[n], p), x, y, k);
    } else if y < x {
      TwiceInJobs(Jobs(states[n], p), y, x, k);
    }
  }

  // ------------------------------------------------ messages in the order of their events

  /** A job that was taken was taken by some step. */
  lemma {:induction false} TakenBefore(
      states: seq<State>, steps: seq<Step>, limits: Limits, p: Platform, x: nat, d: nat) returns (c: nat)
    requires IsRun(states, steps, limits) && d <= |steps| && x < |states[d].TakenOf(p)|
    ensures c < d && Takes(states[c], steps[c], p, Jobs(states[d], p)[x]) && |states[c].TakenOf(p)| == x
  {
    hide Next;
    hide Enabled;
    NothingTaken(p);
    assert d > 0;
    var s, step := states[d - 1], steps[d - 1];
    JobsOnlyGrow(s, step, limits, p);
    JobsOverRuns(states, steps, limits, p, d - 1, d);
    if x < |s.TakenOf(p)| {
      c := TakenBefore(states, steps, limits, p, x, d - 1);
    } else {
      c := d - 1;
      TakeAdds(s, step, p, limits);
    }
  }

  lemma {:induction false} NothingTaken(p: Platform)
    ensures Start.TakenOf(p) == []
  {
  }

  lemma {:induction false} TakeAdds(s: State, step: Step, p: Platform, limits: Limits)
    requires Enabled(s, step, limits) && step.Take? && step.p == p
    ensures Takes(s, step, p, Jobs(s, p)[|s.TakenOf(p)|])
    ensures |Next(s, step, limits).TakenOf(p)| == |s.TakenOf(p)| + 1
  {
    TakesNext(s, p, step.recognised, step.legs, limits);
    hide Next;
  }

  /**
   Messages are worked on in the order of their events: when the events of two single
   messages of one platform arrive one after the other, the job of the first is taken
   before that of the second.
   */
  lemma {:induction false} TakenInOrder(
      states: seq<State>, steps: seq<Step>, limits: Limits, a: nat, b: nat, d: nat, first: Key, second: Key)
    requires IsRun(states, steps, limits) && a < b < |steps| && d < |steps| && first.platform == second.platform
    requires Arrives(states[a], steps[a], first) && Arrives(states[b], steps[b], second)
    requires Takes(states[d], steps[d], second.platform, [second])
    ensures exists c | 0 <= c < d :: Takes(states[c], steps[c], first.platform, [first])
  {
    hide Next;
    hide Enabled;
    var p := first.platform;
    ArrivalIsLast(states[a], steps[a], limits, first);
    ArrivalIsLast(states[b], steps[b], limits, second);
    JobsOverRuns(states, steps, limits, p, a + 1, b);
    var x, y, z := |Jobs(states[a], p)|, |Jobs(states[b], p)|, |states[d].TakenOf(p)|;
    var n := if d < b + 1 then b + 1 else d;
    JobsOverRuns(states, steps, limits, p, b + 1, n);
    JobsOverRuns(states, steps, limits, p, a + 1, n);
    JobsOverRuns(states, steps, limits, p, d, n);
    TakeAdds(states[d], steps[d], p, limits);
    TakesNext(states[d], p, steps[d].recognised, steps[d].legs, limits);
    assert Jobs(states[n], p)[x] == [first] && Jobs(states[n], p)[y] == [second] && Jobs(states[n], p)[z] == [second];
    OnePlace(states, steps, limits, n, p, y, z, second);
    var c := TakenBefore(states, steps, limits, p, x, d);
  }

  /** What is taken alone, by a worker with a pair to serve, is handed on unless one of the two checks drops it. */
  lemma {:induction false} TakenIsHandedOn(
      s: State, p: Platform, recognised: set<Key>, legs: seq<Leg>, limits: Limits, k: Key)
    requires Enabled(s, Take(p, recognised, legs), limits) && Takes(s, Take(p, recognised, legs), p, [k]) && legs != []
    ensures Next(s, Take(p, recognised, legs), limits).mirrored
         == if k in s.b.tokens || k in recognised then s.mirrored else s.mirrored + {k}
  {
    hide Sift;
    hide Unrecognised;
    ChecksOne(k, s.b.tokens, recognised);
    assert (set x | x in [k]) == {k};
  }

  lemma {:induction false} ChecksOne(k: Key, tokens: multiset<Key>, recognised: set<Key>)
    ensures Unrecognised(Sift([k], tokens).0, recognised) == if k in tokens || k in recognised then [] else [k]
  {
    assert [k][..0] == [] && [k][0] == k;
    assert Sift([], tokens) == ([], tokens) && Unrecognised([], recognised) == [];
    assert [] + [k] == [k];
  }
}
