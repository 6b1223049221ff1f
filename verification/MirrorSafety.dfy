/**
 What every interleaving of the mirroring protocol keeps, and the no-loop theorem: a
 message the bridge made is mirrored again exactly when a worker takes its echo for some
 pair before the message was recorded, or after an edit event or the clean-up took its token.
 */
module MirrorSafety {
  import opened Sequences
  import opened Messages
  import opened MirrorProtocol

  // ------------------------------------------------ the invariant, message by message

  ghost predicate KeyInv(s: State, k: Key)
  {
    && Pending(s)[k] <= 1
    && Unrecorded(s)[k] <= 1
    && (k in Pending(s) || k in s.bridgeMade ==> k.id < s.next)
    && (k in Unrecorded(s) ==> k in s.bridgeMade && k !in s.recorded)
    && (k in s.recorded ==> k in s.bridgeMade)
    && (k in s.lost ==> k in s.recorded)
    && s.b.tokens[k] <= 1
    && (k in s.b.tokens ==> k in s.recorded && k !in s.lost)
    && (k in s.recorded && k in Pending(s) && k !in s.lost ==> k in s.b.tokens)
  }

  ghost predicate Inv(s: State)
  {
    forall k :: KeyInv(s, k)
  }

  lemma {:induction false} InvAtStart()
    ensures Inv(Start)
  {
    forall k
      ensures KeyInv(Start, k)
    {
      assert InboxKeys(Inbox([], [])) == multiset{};
    }
  }

  lemma {:induction false} FreshKey(s: State, k: Key)
    requires KeyInv(s, k) && k.id == s.next
    ensures k !in Pending(s) && k !in s.bridgeMade && k !in Unrecorded(s) && k !in s.b.tokens
  {
  }

  lemma {:induction false} InflightAppend(s: State, k: Key, x: Key)
    ensures Pending(s.(inflight := s.inflight + [k]))[x] == Pending(s)[x] + (if x == k then 1 else 0)
  {
    assert multiset(s.inflight + [k]) == multiset(s.inflight) + multiset{k};
  }

  lemma {:induction false} PostKeeps(s: State, p: Platform, chat: string, limits: Limits, x: Key)
    requires KeyInv(s, x)
    ensures KeyInv(Next(s, Post(p, chat), limits), x)
  {
    hide Pending;
    var k := Key(p, chat, s.next);
    InflightAppend(s, k, x);
    var s' := Next(s, Post(p, chat), limits);
    SamePending(s.(inflight := s.inflight + [k]), s');
    if x == k {
      FreshKey(s, k);
    }
  }

  /** Pending depends on the queues, the albums and the undelivered events only. */
  lemma {:induction false} SamePending(s: State, s': State)
    requires s'.inflight == s.inflight && s'.b.tg == s.b.tg && s'.b.bale == s.b.bale
    ensures Pending(s') == Pending(s)
  {
  }

  lemma {:induction false} EditKeeps(s: State, k: Key, limits: Limits, x: Key)
    requires KeyInv(s, x) && Enabled(s, Edit(k), limits)
    ensures KeyInv(Next(s, Edit(k), limits), x)
  {
    hide Pending;
    SamePending(s, Next(s, Edit(k), limits));
  }

  lemma {:induction false} PruneKeeps(s: State, k: Key, limits: Limits, x: Key)
    requires KeyInv(s, x) && Enabled(s, Prune(k), limits)
    ensures KeyInv(Next(s, Prune(k), limits), x)
  {
    hide Pending;
    SamePending(s, Next(s, Prune(k), limits));
  }

  /** Replacing one inbox changes what is pending by the difference. */
  lemma {:induction false} InboxDelta(s: State, p: Platform, inbox: Inbox, x: Key)
    ensures Pending(s.(b := s.b.With(p, inbox)))[x] + InboxKeys(s.b.At(p))[x] == Pending(s)[x] + InboxKeys(inbox)[x]
  {
    hide InboxKeys;
  }

  lemma {:induction false} DeliverPending(s: State, i: nat, album: Option<nat>, limits: Limits, x: Key)
    requires i < |s.inflight|
    ensures Pending(Next(s, Deliver(i, album), limits))[x] ==
            Pending(s)[x] - (if s.inflight[i] in s.b.tokens && x == s.inflight[i] then 1 else 0)
  {
    hide InboxKeys;
    var k := s.inflight[i];
    RemoveAtMultiset(s.inflight, i);
    var t := s.(inflight := RemoveAt(s.inflight, i));
    assert Pending(s)[x] == Pending(t)[x] + (if x == k then 1 else 0);
    var s' := Next(s, Deliver(i, album), limits);
    if k in s.b.tokens {
      SamePending(t, s');
    } else {
      var inbox := s.b.At(k.platform);
      ReceivedKeys(inbox, k, album);
      InboxDelta(t, k.platform, Received(inbox, k, album), x);
    }
  }

  /** An event uses up one token of its message, which is then dropped, or none, and the message becomes work. */
  lemma {:induction false} DeliverTokens(s: State, i: nat, album: Option<nat>, limits: Limits, x: Key)
    requires i < |s.inflight|
    ensures var k, t := s.inflight[i], Next(s, Deliver(i, album), limits);
            && (x != k ==> t.b.tokens[x] == s.b.tokens[x])
            && (if k in s.b.tokens then t.b.tokens[k] == s.b.tokens[k] - 1 && Pending(t)[k] == Pending(s)[k] - 1
                else t.b.tokens[k] == 0 && Pending(t)[k] == Pending(s)[k])
  {
    hide Pending;
    hide Received;
    DeliverPending(s, i, album, limits, s.inflight[i]);
  }

  /** An edit event uses up one token of its message, and nothing else changes. */
  lemma {:induction false} EditTokens(s: State, k: Key, limits: Limits, x: Key)
    requires Enabled(s, Edit(k), limits)
    ensures var t := Next(s, Edit(k), limits);
            && t.b.tokens[x] == (if x == k && k in s.b.tokens then s.b.tokens[k] - 1 else s.b.tokens[x])
            && Pending(t) == Pending(s)
  {
    hide Pending;
    SamePending(s, Next(s, Edit(k), limits));
  }

  lemma {:induction false} DeliverKeeps(s: State, i: nat, album: Option<nat>, limits: Limits, x: Key)
    requires KeyInv(s, x) && i < |s.inflight|
    ensures KeyInv(Next(s, Deliver(i, album), limits), x)
  {
    hide Pending;
    DeliverPending(s, i, album, limits, x);
  }

  lemma {:induction false} TimerKeeps(s: State, p: Platform, gid: nat, limits: Limits, x: Key)
    requires KeyInv(s, x) && Enabled(s, Timer(p, gid), limits)
    ensures KeyInv(Next(s, Timer(p, gid), limits), x)
  {
    hide Pending;
    hide Flushed;
    FlushedKeys(s.b.At(p), gid);
    InboxDelta(s, p, Flushed(s.b.At(p), gid), x);
  }

  lemma {:induction false} RepeatCountsTwice(job: seq<Key>, i: nat, j: nat)
    requires i < j < |job| && job[i] == job[j]
    ensures multiset(job)[job[i]] >= 2
  {
    assert job == job[..i] + [job[i]] + job[i + 1..j] + [job[j]] + job[j + 1..];
  }

  lemma {:induction false} SingleCountsNoRepeats(job: seq<Key>)
    requires forall k :: multiset(job)[k] <= 1
    ensures NoRepeats(job)
  {
    forall i, j | 0 <= i < j < |job|
      ensures job[i] != job[j]
    {
      if job[i] == job[j] {
        RepeatCountsTwice(job, i, j);
      }
    }
  }

  lemma {:induction false} JobIsPending(s: State, p: Platform, k: Key)
    requires s.b.At(p).queue != []
    ensures multiset(s.b.At(p).queue[0])[k] <= Pending(s)[k]
    ensures k in s.b.At(p).queue[0] ==> k in Pending(s)
  {
    JobKeysHead(s.b.At(p).queue);
    assert k in s.b.At(p).queue[0] ==> k in multiset(s.b.At(p).queue[0]);
  }

  lemma {:induction false} JobNoRepeats(s: State, p: Platform)
    requires Inv(s) && s.b.At(p).queue != []
    ensures NoRepeats(s.b.At(p).queue[0])
    ensures forall k | k in s.b.At(p).queue[0] :: k in Pending(s)
  {
    hide Pending;
    hide NoRepeats;
    forall k
      ensures multiset(s.b.At(p).queue[0])[k] <= 1
      ensures k in s.b.At(p).queue[0] ==> k in Pending(s)
    {
      assert KeyInv(s, k);
      JobIsPending(s, p, k);
    }
    SingleCountsNoRepeats(s.b.At(p).queue[0]);
  }

  lemma {:induction false} TakePending(s: State, p: Platform, recognised: set<Key>, legs: seq<Leg>, x: Key)
    requires s.b.At(p).queue != []
    ensures Pending(TakeJob(s, p, recognised, legs))[x] + multiset(s.b.At(p).queue[0])[x] == Pending(s)[x]
  {
    var inbox := s.b.At(p);
    var rest := inbox.(queue := inbox.queue[1..]);
    JobKeysHead(inbox.queue);
    assert InboxKeys(inbox) == InboxKeys(rest) + multiset(inbox.queue[0]);
    hide InboxKeys;
    InboxDelta(s, p, rest, x);
    var s' := TakeJob(s, p, recognised, legs);
    SamePending(s.(b := s.b.With(p, rest)), s');
  }

  lemma {:induction false} TakeUnrecorded(s: State, p: Platform, recognised: set<Key>, legs: seq<Leg>)
    requires s.b.At(p).queue != [] && s.WorkerOf(p).Idle?
    ensures Unrecorded(TakeJob(s, p, recognised, legs)) == Unrecorded(s)
  {
  }

  lemma {:induction false} TakeKeeps(
      s: State, p: Platform, recognised: set<Key>, legs: seq<Leg>, limits: Limits, x: Key)
    requires Inv(s) && Enabled(s, Take(p, recognised, legs), limits)
    ensures KeyInv(Next(s, Take(p, recognised, legs), limits), x)
  {
    assert KeyInv(s, x);
    JobNoRepeats(s, p);
    hide *;
    TakeEnabled(s, p, recognised, legs, limits);
    TakePending(s, p, recognised, legs, x);
    TakeUnrecorded(s, p, recognised, legs);
    TakeTokens(s, p, recognised, legs, x);
    TakeHistory(s, p, recognised, legs);
    KeyAfterTake(s, TakeJob(s, p, recognised, legs), s.b.At(p).queue[0], x);
  }

  lemma {:induction false} TakeEnabled(s: State, p: Platform, recognised: set<Key>, legs: seq<Leg>, limits: Limits)
    requires Enabled(s, Take(p, recognised, legs), limits)
    ensures s.b.At(p).queue != [] && s.WorkerOf(p).Idle?
    ensures Next(s, Take(p, recognised, legs), limits) == TakeJob(s, p, recognised, legs)
  {
    hide Survivors;
    hide TakeJob;
  }

  /** The job left the queue and its own messages used up their tokens. */
  lemma {:induction false} KeyAfterTake(s: State, t: State, job: seq<Key>, x: Key)
    requires KeyInv(s, x)
    requires Pending(t)[x] + multiset(job)[x] == Pending(s)[x] && Unrecorded(t) == Unrecorded(s)
    requires t.next == s.next && t.bridgeMade == s.bridgeMade && t.recorded == s.recorded && t.lost == s.lost
    requires x in job <==> multiset(job)[x] >= 1
    requires t.b.tokens[x] ==
             if !s.b.paused && x in job && x in s.b.tokens then s.b.tokens[x] - 1 else s.b.tokens[x]
    ensures KeyInv(t, x)
  {
    hide Pending;
    hide Unrecorded;
  }

  lemma {:induction false} TakeHistory(s: State, p: Platform, recognised: set<Key>, legs: seq<Leg>)
    requires s.b.At(p).queue != []
    ensures var t := TakeJob(s, p, recognised, legs);
            && t.next == s.next && t.bridgeMade == s.bridgeMade && t.recorded == s.recorded && t.lost == s.lost
  {
  }

  lemma {:induction false} TakeTokens(s: State, p: Platform, recognised: set<Key>, legs: seq<Leg>, x: Key)
    requires s.b.At(p).queue != [] && NoRepeats(s.b.At(p).queue[0])
    ensures TakeJob(s, p, recognised, legs).b.tokens[x] ==
            (if !s.b.paused && x in s.b.At(p).queue[0] && x in s.b.tokens then s.b.tokens[x] - 1 else s.b.tokens[x])
    ensures x in s.b.At(p).queue[0] <==> multiset(s.b.At(p).queue[0])[x] >= 1
  {
    SiftExact(s.b.At(p).queue[0], s.b.tokens, x);
  }

  lemma {:induction false} MadeDelta(s: State, p: Platform, w: Worker, x: Key)
    ensures Unrecorded(s.WithWorker(p, w))[x] + multiset(s.WorkerOf(p).Made())[x]
         == Unrecorded(s)[x] + multiset(w.Made())[x]
  {
  }

  lemma {:induction false} SendKeeps(s: State, p: Platform, limits: Limits, x: Key)
    requires Inv(s) && Enabled(s, Send(p), limits)
    ensures KeyInv(Next(s, Send(p), limits), x)
  {
    hide Pending;
    hide Unrecorded;
    var w := s.WorkerOf(p);
    var k := Key(Other(p), w.legs[0].dst, s.next);
    var s' := Next(s, Send(p), limits);
    InflightAppend(s, k, x);
    SamePending(s.(inflight := s.inflight + [k]), s');
    MadeDelta(s, p, s'.WorkerOf(p), x);
    SameUnrecorded(s.WithWorker(p, s'.WorkerOf(p)), s');
    assert multiset(w.made + [k]) == multiset(w.made) + multiset{k};
    assert KeyInv(s, x) && KeyInv(s, k);
    if x == k {
      FreshKey(s, k);
    }
  }

  lemma {:induction false} ReplaceKeeps(s: State, p: Platform, leg: Leg, limits: Limits, x: Key)
    requires KeyInv(s, x) && Enabled(s, Replace(p, leg), limits)
    ensures KeyInv(Next(s, Replace(p, leg), limits), x)
  {
    hide Pending;
    hide Unrecorded;
    var s' := Next(s, Replace(p, leg), limits);
    SamePending(s, s');
    MadeDelta(s, p, s'.WorkerOf(p), x);
  }

  lemma {:induction false} SameUnrecorded(s: State, s': State)
    requires s'.tgWorker == s.tgWorker && s'.baleWorker == s.baleWorker
    ensures Unrecorded(s') == Unrecorded(s)
  {
  }

  lemma {:induction false} RecordKeeps(s: State, p: Platform, kept: multiset<Key>, limits: Limits, x: Key)
    requires KeyInv(s, x) && Enabled(s, Record(p, kept), limits)
    ensures KeyInv(Next(s, Record(p, kept), limits), x)
  {
    hide Pending;
    hide Unrecorded;
    var w := s.WorkerOf(p);
    var s' := Next(s, Record(p, kept), limits);
    SamePending(s, s');
    MadeDelta(s, p, s'.WorkerOf(p), x);
    SameUnrecorded(s.WithWorker(p, s'.WorkerOf(p)), s');
    assert kept[x] <= multiset(w.made)[x];
  }

  lemma {:induction false} FailKeeps(s: State, p: Platform, limits: Limits, x: Key)
    requires KeyInv(s, x) && Enabled(s, Fail(p), limits)
    ensures KeyInv(Next(s, Fail(p), limits), x)
  {
    hide Pending;
    hide Unrecorded;
    var s' := Next(s, Fail(p), limits);
    SamePending(s, s');
    MadeDelta(s, p, s'.WorkerOf(p), x);
  }

  /**
   Every step of every interleaving keeps the invariant: a message is pending at most
   once, a token belongs to a recorded message and is alone, and a recorded message whose
   echo is still pending has its token unless an edit or the clean-up took it.
   */
  lemma {:induction false} StepKeepsInv(s: State, step: Step, limits: Limits)
    requires Inv(s) && Enabled(s, step, limits)
    ensures Inv(Next(s, step, limits))
  {
    hide Next;
    hide KeyInv;
    forall x
      ensures KeyInv(Next(s, step, limits), x)
    {
      match step
      case Post(p, chat) => PostKeeps(s, p, chat, limits, x);
      case Edit(k) => EditKeeps(s, k, limits, x);
      case Prune(k) => PruneKeeps(s, k, limits, x);
      case SetPaused(on) => PauseKeeps(s, on, limits, x);
      case Deliver(i, album) => DeliverKeeps(s, i, album, limits, x);
      case Timer(p, gid) => TimerKeeps(s, p, gid, limits, x);
      case Take(p, recognised, legs) => TakeKeeps(s, p, recognised, legs, limits, x);
      case Replace(p, leg) => ReplaceKeeps(s, p, leg, limits, x);
      case Send(p) => SendKeeps(s, p, limits, x);
      case Record(p, kept) => RecordKeeps(s, p, kept, limits, x);
      case Fail(p) => FailKeeps(s, p, limits, x);
    }
  }

  lemma {:induction false} PauseKeeps(s: State, on: bool, limits: Limits, x: Key)
    requires KeyInv(s, x)
    ensures KeyInv(Next(s, SetPaused(on), limits), x)
  {
    hide Pending;
    SamePending(s, Next(s, SetPaused(on), limits));
  }

  // ------------------------------------------------ runs

  ghost predicate IsRun(states: seq<State>, steps: seq<Step>, limits: Limits)
  {
    && |states| == |steps| + 1
    && states[0] == Start
    && forall i | 0 <= i < |steps| ::
         Enabled(states[i], steps[i], limits) && states[i + 1] == Next(states[i], steps[i], limits)
  }

  lemma {:induction false} InvOverRuns(states: seq<State>, steps: seq<Step>, limits: Limits, n: nat)
    requires IsRun(states, steps, limits) && n <= |steps|
    ensures Inv(states[n])
  {
    hide Inv;
    if n == 0 {
      InvAtStart();
    } else {
      InvOverRuns(states, steps, limits, n - 1);
      StepKeepsInv(states[n - 1], steps[n - 1], limits);
    }
  }

  /** The bridge-made message `k` reaches the worker with its ledger entry in place. */
  predicate Guarded(s: State, k: Key)
  {
    k in s.recorded && k !in s.lost
  }

  /**
   The ledger decides correctly: of the messages in a job, a bridge-made one survives the
   check exactly when it is not recorded yet or has lost its token, and a message
   the bridge did not make always survives.
   */
  lemma {:induction false} LedgerIsExact(s: State, p: Platform, k: Key)
    requires Inv(s) && s.b.At(p).queue != [] && k in s.b.At(p).queue[0]
    ensures k in Sift(s.b.At(p).queue[0], s.b.tokens).0 <==> !Guarded(s, k)
    ensures k !in s.bridgeMade ==> !Guarded(s, k)
  {
    JobNoRepeats(s, p);
    SiftExact(s.b.At(p).queue[0], s.b.tokens, k);
    assert KeyInv(s, k);
  }

  /** At this step a worker hands a bridge-made message to some pair's `pair_send`. */
  predicate Bounces(s: State, step: Step)
  {
    step.Take? && s.b.At(step.p).queue != [] && !s.b.paused && step.legs != [] &&
    exists k :: k in s.b.At(step.p).queue[0] && k in s.bridgeMade && !Guarded(s, k) && k !in step.recognised
  }

  /** Nothing the bridge made has been mirrored. */
  predicate LoopFree(s: State)
  {
    s.mirrored !! s.bridgeMade
  }

  lemma {:induction false} MirroredStep(s: State, step: Step, limits: Limits)
    requires Inv(s) && Enabled(s, step, limits) && s.mirrored !! s.bridgeMade
    requires forall k | k in s.mirrored :: k.id < s.next
    ensures LoopFree(Next(s, step, limits)) <==> !Bounces(s, step)
    ensures forall k | k in Next(s, step, limits).mirrored :: k.id < Next(s, step, limits).next
  {
    match step
    case Take(p, recognised, legs) =>
      TakeMirrored(s, p, recognised, legs);
    case _ =>
  }

  lemma {:induction false} TakeMirrored(s: State, p: Platform, recognised: set<Key>, legs: seq<Leg>)
    requires Inv(s) && s.b.At(p).queue != []
    ensures forall k :: k in TakeJob(s, p, recognised, legs).mirrored <==>
              k in s.mirrored ||
              (!s.b.paused && legs != [] && k in s.b.At(p).queue[0] && !Guarded(s, k) && k !in recognised)
    ensures forall k | k in s.b.At(p).queue[0] :: k.id < s.next
  {
    var job := s.b.At(p).queue[0];
    JobNoRepeats(s, p);
    forall k
      ensures k in TakeJob(s, p, recognised, legs).mirrored <==>
              k in s.mirrored || (!s.b.paused && legs != [] && k in job && !Guarded(s, k) && k !in recognised)
    {
      UnrecognisedExact(Sift(job, s.b.tokens).0, recognised, k);
      SiftExact(job, s.b.tokens, k);
      if k in job {
        LedgerIsExact(s, p, k);
      }
    }
    forall k | k in job
      ensures k.id < s.next
    {
      assert KeyInv(s, k);
    }
  }

  lemma {:induction false} MirroredOverRuns(states: seq<State>, steps: seq<Step>, limits: Limits, n: nat)
    requires IsRun(states, steps, limits) && n <= |steps|
    requires forall i | 0 <= i < n :: !Bounces(states[i], steps[i])
    ensures LoopFree(states[n]) && forall k | k in states[n].mirrored :: k.id < states[n].next
  {
    if n > 0 {
      hide Bounces;
      hide Inv;
      hide Next;
      hide Enabled;
      MirroredOverRuns(states, steps, limits, n - 1);
      InvOverRuns(states, steps, limits, n - 1);
      MirroredStep(states[n - 1], steps[n - 1], limits);
    }
  }

  lemma {:induction false} LoopsPersistOverRuns(states: seq<State>, steps: seq<Step>, limits: Limits, i: nat, n: nat)
    requires IsRun(states, steps, limits) && i <= n <= |steps| && !LoopFree(states[i])
    ensures !LoopFree(states[n])
    decreases n - i
  {
    if i < n {
      LoopsPersistOverRuns(states, steps, limits, i + 1, n);
    }
  }

  /**
   No loops, exactly: over every interleaving of posts, deliveries, edits, clean-ups, pauses,
   worker steps, replacements, sends and failures, no message the bridge made is ever handed
   to a pair if and only if no worker with a pair to serve ever takes an echo whose message is
   not recorded yet (or has lost its token) and whose content the second layer does not
   recognise either.
   */
  lemma {:induction false} NoLoops(states: seq<State>, steps: seq<Step>, limits: Limits)
    requires IsRun(states, steps, limits)
    ensures LoopFree(states[|steps|]) <==> forall i | 0 <= i < |steps| :: !Bounces(states[i], steps[i])
  {
    if forall i | 0 <= i < |steps| :: !Bounces(states[i], steps[i]) {
      MirroredOverRuns(states, steps, limits, |steps|);
    } else {
      FirstBounce(states, steps, limits, |steps|);
    }
  }

  lemma {:induction false} FirstBounce(states: seq<State>, steps: seq<Step>, limits: Limits, n: nat)
    requires IsRun(states, steps, limits) && n <= |steps|
    requires exists i :: 0 <= i < n && Bounces(states[i], steps[i])
    ensures !LoopFree(states[|steps|])
  {
    if forall i | 0 <= i < n - 1 :: !Bounces(states[i], steps[i]) {
      MirroredOverRuns(states, steps, limits, n - 1);
      InvOverRuns(states, steps, limits, n - 1);
      MirroredStep(states[n - 1], steps[n - 1], limits);
      LoopsPersistOverRuns(states, steps, limits, n, |steps|);
    } else {
      FirstBounce(states, steps, limits, n - 1);
    }
  }

  /** A recorded message whose echo is still unprocessed, and whose token was not lost, holds exactly one token. */
  lemma {:induction false} EchoHoldsOneToken(states: seq<State>, steps: seq<Step>, limits: Limits, n: nat, k: Key)
    requires IsRun(states, steps, limits) && n <= |steps|
    requires k in Pending(states[n]) && Guarded(states[n], k)
    ensures states[n].b.tokens[k] == 1
  {
    InvOverRuns(states, steps, limits, n);
    assert KeyInv(states[n], k);
    hide Pending;
    hide Unrecorded;
  }

  /** Every bridge-made message in the job a worker takes at this step has its ledger entry. */
  predicate TakesRecorded(s: State, step: Step)
  {
    step.Take? && s.b.At(step.p).queue != [] ==>
      forall k | k in s.b.At(step.p).queue[0] && k in s.bridgeMade :: Guarded(s, k)
  }

  /**
   So when echoes are only worked on after their message is recorded, nothing loops: one hop,
   whatever the interleaving.
   */
  lemma {:induction false} RecordedEchoesNeverLoop(states: seq<State>, steps: seq<Step>, limits: Limits)
    requires IsRun(states, steps, limits)
    requires forall i | 0 <= i < |steps| :: TakesRecorded(states[i], steps[i])
    ensures LoopFree(states[|steps|])
  {
    forall i | 0 <= i < |steps|
      ensures !Bounces(states[i], steps[i])
    {
      assert TakesRecorded(states[i], steps[i]);
    }
    NoLoops(states, steps, limits);
  }
}
