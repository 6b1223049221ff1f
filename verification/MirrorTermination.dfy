/**
 With finitely many user posts and edits the protocol comes to rest: every internal step of a
 loop-free run lowers an explicit measure, and while the measure is positive some
 internal step can be taken.
 */
module MirrorTermination {
  import opened Sequences
  import opened Messages
  import opened MirrorProtocol
  import opened MirrorSafety
  import Albums
  import Sorting

  /** What a queued message may still cost: a user's message may be copied, a bridge-made one is only dropped. */
  function Cost(k: Key, bridgeMade: set<Key>, limits: Limits): nat
  {
    if k in bridgeMade then 1 else 1 + 4 * limits.copies + limits.pairs
  }

  /** The cost of a list of messages, `extra` added for each. */
  function Costs(keys: seq<Key>, bridgeMade: set<Key>, limits: Limits, extra: nat): nat
  {
    if keys == [] then 0
    else Costs(keys[..|keys| - 1], bridgeMade, limits, extra) + Cost(keys[|keys| - 1], bridgeMade, limits) + extra
  }

  function JobCosts(jobs: seq<seq<Key>>, bridgeMade: set<Key>, limits: Limits): nat
  {
    if jobs == [] then 0
    else JobCosts(jobs[..|jobs| - 1], bridgeMade, limits) + Costs(jobs[|jobs| - 1], bridgeMade, limits, 0)
  }

  function AlbumCosts(albums: seq<Albums.Album<nat, Key>>, bridgeMade: set<Key>, limits: Limits): nat
  {
    if albums == [] then 0
    else
      AlbumCosts(albums[..|albums| - 1], bridgeMade, limits) + Costs(albums[|albums| - 1].items, bridgeMade, limits, 1)
  }

  function InboxCosts(inbox: Inbox, bridgeMade: set<Key>, limits: Limits): nat
  {
    JobCosts(inbox.queue, bridgeMade, limits) + AlbumCosts(inbox.albums, bridgeMade, limits)
  }

  function WorkerCost(w: Worker): nat
  {
    if w.Idle? then 0 else 4 * Copies(w.legs) + |w.legs|
  }

  function Measure(s: State, limits: Limits): nat
  {
    Costs(s.inflight, s.bridgeMade, limits, 2)
    + (InboxCosts(s.b.tg, s.bridgeMade, limits) + InboxCosts(s.b.bale, s.bridgeMade, limits))
    + (WorkerCost(s.tgWorker) + WorkerCost(s.baleWorker))
  }

  /** A step the environment takes; all others are the system's own. */
  predicate External(step: Step)
  {
    Input(step) || step.Edit? || step.Prune? || step.SetPaused?
  }

  /** What makes the system send: a user writes, or an edit makes it replace a copy. */
  predicate Input(step: Step)
  {
    step.Post? || step.Replace?
  }

  // ------------------------------------------------ sums

  lemma {:induction false} CostsAppend(keys: seq<Key>, k: Key, bm: set<Key>, limits: Limits, extra: nat)
    ensures Costs(keys + [k], bm, limits, extra) == Costs(keys, bm, limits, extra) + Cost(k, bm, limits) + extra
  {
    assert (keys + [k])[..|keys|] == keys;
  }

  lemma {:induction false} CostsRemove(keys: seq<Key>, i: nat, bm: set<Key>, limits: Limits, extra: nat)
    requires i < |keys|
    ensures Costs(keys, bm, limits, extra) ==
            Costs(RemoveAt(keys, i), bm, limits, extra) + Cost(keys[i], bm, limits) + extra
    decreases |keys|
  {
    var n := |keys|;
    if i == n - 1 {
      RemoveLast(keys);
    } else {
      hide Costs;
      hide Cost;
      RemoveBeforeLast(keys, i);
      hide RemoveAt;
      CostsAppend(keys[..n - 1], keys[n - 1], bm, limits, extra);
      CostsRemove(keys[..n - 1], i, bm, limits, extra);
      CostsAppend(RemoveAt(keys[..n - 1], i), keys[n - 1], bm, limits, extra);
    }
  }

  lemma {:induction false} CostsInsert(keys: seq<Key>, k: Key, bm: set<Key>, limits: Limits)
    ensures Costs(Sorting.Insert(ById, keys, k), bm, limits, 0) == Costs(keys, bm, limits, 0) + Cost(k, bm, limits)
  {
    if keys == [] || ById(keys[|keys| - 1], k) {
      CostsAppend(keys, k, bm, limits, 0);
    } else {
      CostsInsert(keys[..|keys| - 1], k, bm, limits);
      CostsAppend(Sorting.Insert(ById, keys[..|keys| - 1], k), keys[|keys| - 1], bm, limits, 0);
    }
  }

  /** Sorting an album does not change its cost. */
  lemma {:induction false} CostsSorted(keys: seq<Key>, bm: set<Key>, limits: Limits)
    ensures Costs(Sorting.StableSort(ById, keys), bm, limits, 0) + |keys| == Costs(keys, bm, limits, 1)
  {
    if keys != [] {
      CostsSorted(keys[..|keys| - 1], bm, limits);
      CostsInsert(Sorting.StableSort(ById, keys[..|keys| - 1]), keys[|keys| - 1], bm, limits);
    }
  }

  lemma {:induction false} JobCostsHead(jobs: seq<seq<Key>>, bm: set<Key>, limits: Limits)
    requires jobs != []
    ensures JobCosts(jobs, bm, limits) == Costs(jobs[0], bm, limits, 0) + JobCosts(jobs[1..], bm, limits)
  {
    var n := |jobs|;
    if n > 1 {
      var middle, last := jobs[1..n - 1], jobs[n - 1];
      JobCostsHead(jobs[..n - 1], bm, limits);
      assert jobs[..n - 1][1..] == middle && jobs[1..] == middle + [last];
    }
  }

  lemma {:induction false} AlbumCostsSplit(albums: seq<Albums.Album<nat, Key>>, i: nat, bm: set<Key>, limits: Limits)
    requires i < |albums|
    ensures AlbumCosts(albums, bm, limits) ==
            AlbumCosts(RemoveAt(albums, i), bm, limits) + Costs(albums[i].items, bm, limits, 1)
    decreases |albums|
  {
    hide Costs;
    var n := |albums|;
    var init, last := albums[..n - 1], albums[n - 1];
    if i == n - 1 {
      RemoveLast(albums);
    } else {
      RemoveBeforeLast(albums, i);
      hide RemoveAt;
      AlbumCostsSplit(init, i, bm, limits);
    }
  }

  /** Receiving a message costs at most its album price. */
  lemma {:induction false} ReceivedCosts(inbox: Inbox, k: Key, album: Option<nat>, bm: set<Key>, limits: Limits)
    ensures InboxCosts(Received(inbox, k, album), bm, limits) <= InboxCosts(inbox, bm, limits) + Cost(k, bm, limits) + 1
  {
    match album
    case None =>
      assert [k][..0] == [];
      assert Costs([k], bm, limits, 0) == Cost(k, bm, limits);
    case Some(g) =>
      var i := Albums.Find(inbox.albums, g);
      if i == |inbox.albums| {
        assert [k][..0] == [];
        assert Costs([k], bm, limits, 1) == Cost(k, bm, limits) + 1;
      } else {
        var albums' := Albums.Fed(inbox.albums, g, k);
        AlbumCostsSplit(inbox.albums, i, bm, limits);
        AlbumCostsSplit(albums', i, bm, limits);
        assert RemoveAt(albums', i) == RemoveAt(inbox.albums, i);
        CostsAppend(inbox.albums[i].items, k, bm, limits, 1);
      }
  }

  lemma {:induction false} FlushedCosts(inbox: Inbox, gid: nat, bm: set<Key>, limits: Limits)
    requires Albums.Find(inbox.albums, gid) < |inbox.albums|
    requires inbox.albums[Albums.Find(inbox.albums, gid)].items != []
    ensures InboxCosts(Flushed(inbox, gid), bm, limits) < InboxCosts(inbox, bm, limits)
  {
    var i := Albums.Find(inbox.albums, gid);
    var items := inbox.albums[i].items;
    AlbumCostsSplit(inbox.albums, i, bm, limits);
    CostsSorted(items, bm, limits);
  }

  /** A new bridge-made message changes no other message's cost. */
  lemma {:induction false} CostsUnaffected(keys: seq<Key>, bm: set<Key>, k: Key, limits: Limits, extra: nat)
    requires k !in keys
    ensures Costs(keys, bm + {k}, limits, extra) == Costs(keys, bm, limits, extra)
  {
    if keys != [] {
      CostsUnaffected(keys[..|keys| - 1], bm, k, limits, extra);
    }
  }

  lemma {:induction false} JobCostsUnaffected(jobs: seq<seq<Key>>, bm: set<Key>, k: Key, limits: Limits)
    requires k !in JobKeys(jobs)
    ensures JobCosts(jobs, bm + {k}, limits) == JobCosts(jobs, bm, limits)
  {
    if jobs != [] {
      assert k !in multiset(jobs[|jobs| - 1]);
      JobCostsUnaffected(jobs[..|jobs| - 1], bm, k, limits);
      CostsUnaffected(jobs[|jobs| - 1], bm, k, limits, 0);
    }
  }

  lemma {:induction false} AlbumCostsUnaffected(
      albums: seq<Albums.Album<nat, Key>>, bm: set<Key>, k: Key, limits: Limits)
    requires k !in AlbumKeys(albums)
    ensures AlbumCosts(albums, bm + {k}, limits) == AlbumCosts(albums, bm, limits)
  {
    if albums != [] {
      assert k !in multiset(albums[|albums| - 1].items);
      AlbumCostsUnaffected(albums[..|albums| - 1], bm, k, limits);
      CostsUnaffected(albums[|albums| - 1].items, bm, k, limits, 1);
    }
  }

  lemma {:induction false} PendingUnaffected(s: State, k: Key, limits: Limits)
    requires k !in Pending(s)
    ensures Costs(s.inflight, s.bridgeMade + {k}, limits, 2) == Costs(s.inflight, s.bridgeMade, limits, 2)
    ensures InboxCosts(s.b.tg, s.bridgeMade + {k}, limits) == InboxCosts(s.b.tg, s.bridgeMade, limits)
    ensures InboxCosts(s.b.bale, s.bridgeMade + {k}, limits) == InboxCosts(s.b.bale, s.bridgeMade, limits)
  {
    assert k !in multiset(s.inflight);
    assert k !in InboxKeys(s.b.tg) && k !in InboxKeys(s.b.bale);
    CostsUnaffected(s.inflight, s.bridgeMade, k, limits, 2);
    JobCostsUnaffected(s.b.tg.queue, s.bridgeMade, k, limits);
    JobCostsUnaffected(s.b.bale.queue, s.bridgeMade, k, limits);
    AlbumCostsUnaffected(s.b.tg.albums, s.bridgeMade, k, limits);
    AlbumCostsUnaffected(s.b.bale.albums, s.bridgeMade, k, limits);
  }

  // ------------------------------------------------ nothing queued is empty

  predicate InboxFilled(inbox: Inbox)
  {
    && (forall i | 0 <= i < |inbox.queue| :: inbox.queue[i] != [])
    && (forall i | 0 <= i < |inbox.albums| :: inbox.albums[i].items != [])
  }

  predicate Filled(s: State)
  {
    InboxFilled(s.b.tg) && InboxFilled(s.b.bale)
  }

  lemma {:induction false} FlushedFilled(inbox: Inbox, gid: nat)
    requires InboxFilled(inbox)
    ensures InboxFilled(Flushed(inbox, gid))
  {
    var items := Albums.Popped(inbox.albums, gid).0;
    if items != [] {
      SortedFilled(items);
    }
    PoppedFilled(inbox, gid);
    hide Albums.Popped;
    hide Sorting.StableSort;
  }

  lemma {:induction false} SortedFilled(items: seq<Key>)
    requires items != []
    ensures Sorting.StableSort(ById, items) != []
  {
    ByIdIsTotalPreorder();
    Sorting.StableSortCorrect(ById, items);
  }

  lemma {:induction false} PoppedFilled(inbox: Inbox, gid: nat)
    requires InboxFilled(inbox)
    ensures InboxFilled(inbox.(albums := Albums.Popped(inbox.albums, gid).1))
  {
    var i := Albums.Find(inbox.albums, gid);
    if i < |inbox.albums| {
      var rest := RemoveAt(inbox.albums, i);
      assert forall j | 0 <= j < |rest| :: rest[j] == inbox.albums[if j < i then j else j + 1];
    }
  }

  lemma {:induction false} ReceivedFilled(inbox: Inbox, k: Key, album: Option<nat>)
    requires InboxFilled(inbox)
    ensures InboxFilled(Received(inbox, k, album))
  {
  }

  lemma {:induction false} TailFilled(inbox: Inbox)
    requires InboxFilled(inbox) && inbox.queue != []
    ensures InboxFilled(inbox.(queue := inbox.queue[1..]))
  {
  }

  lemma {:induction false} StepKeepsFilled(s: State, step: Step, limits: Limits)
    requires Filled(s) && Enabled(s, step, limits)
    ensures Filled(Next(s, step, limits))
  {
    hide Received;
    hide Flushed;
    hide Sift;
    hide Unrecognised;
    match step
    case Deliver(i, album) =>
      hide InboxFilled;
      ReceivedFilled(s.b.At(s.inflight[i].platform), s.inflight[i], album);
    case Timer(p, gid) =>
      hide InboxFilled;
      FlushedFilled(s.b.At(p), gid);
    case Take(p, recognised, legs) =>
      hide InboxFilled;
      TailFilled(s.b.At(p));
    case Post(_, _) => hide InboxFilled;
    case Edit(_) => hide InboxFilled;
    case Prune(_) => hide InboxFilled;
    case SetPaused(_) => hide InboxFilled;
    case Replace(_, _) => hide InboxFilled;
    case Send(_) => hide InboxFilled;
    case Record(_, _) => hide InboxFilled;
    case Fail(_) => hide InboxFilled;
  }

  // ------------------------------------------------ every internal step lowers the measure

  lemma {:induction false} MeasureWith(s: State, p: Platform, inbox: Inbox, limits: Limits)
    ensures Measure(s.(b := s.b.With(p, inbox)), limits) + InboxCosts(s.b.At(p), s.bridgeMade, limits)
         == Measure(s, limits) + InboxCosts(inbox, s.bridgeMade, limits)
  {
    hide InboxCosts;
    hide Costs;
  }

  lemma {:induction false} MeasureWithWorker(s: State, p: Platform, w: Worker, limits: Limits)
    ensures Measure(s.WithWorker(p, w), limits) + WorkerCost(s.WorkerOf(p)) == Measure(s, limits) + WorkerCost(w)
  {
    hide InboxCosts;
    hide Costs;
    hide WorkerCost;
  }

  /** The measure looks at the events, the inboxes, the workers and who made what; not at the ledger. */
  lemma {:induction false} SameMeasure(s: State, s': State, limits: Limits)
    requires s'.inflight == s.inflight && s'.bridgeMade == s.bridgeMade
    requires s'.b.tg == s.b.tg && s'.b.bale == s.b.bale
    requires s'.tgWorker == s.tgWorker && s'.baleWorker == s.baleWorker
    ensures Measure(s', limits) == Measure(s, limits)
  {
  }

  lemma {:induction false} DeliverLowers(s: State, i: nat, album: Option<nat>, limits: Limits)
    requires i < |s.inflight|
    ensures Measure(Next(s, Deliver(i, album), limits), limits) < Measure(s, limits)
  {
    var k := s.inflight[i];
    CostsRemove(s.inflight, i, s.bridgeMade, limits, 2);
    var t := s.(inflight := RemoveAt(s.inflight, i));
    var s' := Next(s, Deliver(i, album), limits);
    assert Measure(t, limits) + Cost(k, s.bridgeMade, limits) + 2 == Measure(s, limits) by {
      hide InboxCosts;
      hide Cost;
    }
    hide Measure;
    hide InboxCosts;
    if k in s.b.tokens {
      SameMeasure(t, s', limits);
    } else {
      var inbox := s.b.At(k.platform);
      ReceivedCosts(inbox, k, album, s.bridgeMade, limits);
      MeasureWith(t, k.platform, Received(inbox, k, album), limits);
    }
  }

  lemma {:induction false} TimerLowers(s: State, p: Platform, gid: nat, limits: Limits)
    requires Filled(s) && Enabled(s, Timer(p, gid), limits)
    ensures Measure(Next(s, Timer(p, gid), limits), limits) < Measure(s, limits)
  {
    FlushedCosts(s.b.At(p), gid, s.bridgeMade, limits);
    hide Measure;
    hide InboxCosts;
    hide Flushed;
    MeasureWith(s, p, Flushed(s.b.At(p), gid), limits);
  }

  lemma {:induction false} CopiesHead(legs: seq<Leg>)
    requires legs != []
    ensures Copies(legs) == legs[0].remaining + Copies(legs[1..])
  {
    var n := |legs|;
    if n > 1 {
      CopiesHead(legs[..n - 1]);
      assert legs[..n - 1][1..] == legs[1..][..n - 2];
      assert legs[1..][n - 2] == legs[n - 1];
    }
  }

  lemma {:induction false} SendLowers(s: State, p: Platform, limits: Limits)
    requires Inv(s) && Enabled(s, Send(p), limits)
    ensures Measure(Next(s, Send(p), limits), limits) < Measure(s, limits)
  {
    var w := s.WorkerOf(p);
    var k := Key(Other(p), w.legs[0].dst, s.next);
    assert KeyInv(s, k);
    FreshKey(s, k);
    var s' := Next(s, Send(p), limits);
    var w' := s'.WorkerOf(p);
    var t := s.(inflight := s.inflight + [k], bridgeMade := s.bridgeMade + {k});
    SendCost(s, k, limits);
    CopiesHead(w.legs);
    CopiesHead(w'.legs);
    assert w'.legs[1..] == w.legs[1..];
    hide Measure;
    MeasureWithWorker(t, p, w', limits);
    SameMeasure(t.WithWorker(p, w'), s', limits);
  }

  lemma {:induction false} SendCost(s: State, k: Key, limits: Limits)
    requires k !in Pending(s)
    ensures Measure(s.(inflight := s.inflight + [k], bridgeMade := s.bridgeMade + {k}), limits) ==
            Measure(s, limits) + 3
  {
    hide Pending;
    hide InboxCosts;
    PendingUnaffected(s, k, limits);
    CostsAppend(s.inflight, k, s.bridgeMade + {k}, limits, 2);
  }

  lemma {:induction false} NextPairLowers(s: State, s': State, p: Platform, limits: Limits)
    requires s.WorkerOf(p).Busy? && s.WorkerOf(p).legs != []
    requires s'.inflight == s.inflight && s'.bridgeMade == s.bridgeMade && s'.b.tg == s.b.tg && s'.b.bale == s.b.bale
    requires s'.WorkerOf(p) == Working(s.WorkerOf(p).legs[1..]) && s'.WorkerOf(Other(p)) == s.WorkerOf(Other(p))
    ensures Measure(s', limits) < Measure(s, limits)
  {
    CopiesHead(s.WorkerOf(p).legs);
    var w' := s'.WorkerOf(p);
    hide Measure;
    MeasureWithWorker(s, p, w', limits);
    SameMeasure(s.WithWorker(p, w'), s', limits);
  }

  // ------------------------------------------------ taking a job

  lemma {:induction false} SurvivorsCons(msgs: seq<Key>, tokens: multiset<Key>, recognised: set<Key>)
    requires msgs != []
    ensures var init, last := msgs[..|msgs| - 1], msgs[|msgs| - 1];
            var before := Unrecognised(Sift(init, tokens).0, recognised);
            Unrecognised(Sift(msgs, tokens).0, recognised) == before
            || Unrecognised(Sift(msgs, tokens).0, recognised) == before + [last]
  {
    var init, last := msgs[..|msgs| - 1], msgs[|msgs| - 1];
    var sifted := Sift(init, tokens).0;
    assert (sifted + [last])[..|sifted|] == sifted;
  }

  /** What the surviving messages of a job may cost to copy, the job has paid for. */
  lemma {:induction false} SurvivorsArePaidFor(
      msgs: seq<Key>, tokens: multiset<Key>, recognised: set<Key>, bm: set<Key>, limits: Limits)
    requires forall k | k in Unrecognised(Sift(msgs, tokens).0, recognised) :: k !in bm
    ensures var out := Unrecognised(Sift(msgs, tokens).0, recognised);
            Costs(msgs, bm, limits, 0) >= |out| * (4 * limits.copies + limits.pairs) + |msgs|
  {
    hide Sift;
    hide Unrecognised;
    hide Costs;
    if msgs == [] {
      NoSurvivors(tokens, recognised, bm, limits);
    } else {
      var init, last := msgs[..|msgs| - 1], msgs[|msgs| - 1];
      var before := Unrecognised(Sift(init, tokens).0, recognised);
      var out := Unrecognised(Sift(msgs, tokens).0, recognised);
      SurvivorsCons(msgs, tokens, recognised);
      assert forall k | k in before :: k in out;
      assert out == before + [last] ==> last in out;
      assert init + [last] == msgs;
      SurvivorsArePaidFor(init, tokens, recognised, bm, limits);
      SurvivorPays(init, last, before, out, bm, limits);
    }
  }

  lemma {:induction false} NoSurvivors(tokens: multiset<Key>, recognised: set<Key>, bm: set<Key>, limits: Limits)
    ensures Unrecognised(Sift([], tokens).0, recognised) == [] && Costs([], bm, limits, 0) == 0
  {
  }

  lemma {:induction false} SurvivorPays(
      init: seq<Key>, last: Key, before: seq<Key>, out: seq<Key>, bm: set<Key>, limits: Limits)
    requires out == before || (out == before + [last] && last !in bm)
    requires Costs(init, bm, limits, 0) >= |before| * (4 * limits.copies + limits.pairs) + |init|
    ensures Costs(init + [last], bm, limits, 0) >= |out| * (4 * limits.copies + limits.pairs) + |init| + 1
  {
    hide Costs;
    CostsAppend(init, last, bm, limits, 0);
    Distribute(|before|, 4 * limits.copies + limits.pairs);
  }

  lemma {:induction false} Distribute(n: nat, c: nat)
    ensures (n + 1) * c == n * c + c
  {
  }

  lemma {:induction false} PlanCost(copies: nat, pairs: nat, n: nat, made: nat, legs: nat)
    requires made <= copies * n && legs <= pairs && (legs > 0 ==> n > 0) && (n == 0 ==> made == 0)
    ensures 4 * made + legs <= n * (4 * copies + pairs)
  {
    assert n * (4 * copies + pairs) == 4 * (copies * n) + n * pairs;
    if n > 0 {
      assert n * pairs >= pairs by {
        Distribute(n - 1, pairs);
      }
    }
  }

  lemma {:induction false} TakeLowers(s: State, p: Platform, recognised: set<Key>, legs: seq<Leg>, limits: Limits)
    requires Inv(s) && Filled(s) && Enabled(s, Take(p, recognised, legs), limits)
    requires !Bounces(s, Take(p, recognised, legs))
    ensures Measure(Next(s, Take(p, recognised, legs), limits), limits) < Measure(s, limits)
  {
    hide Measure;
    hide InboxCosts;
    hide Inv;
    hide Bounces;
    hide Survivors;
    var inbox := s.b.At(p);
    var rest := inbox.(queue := inbox.queue[1..]);
    assert inbox.queue[0] != [];
    HeadCosts(inbox, s.bridgeMade, limits);
    var s' := Next(s, Take(p, recognised, legs), limits);
    var t := s.(b := s.b.With(p, rest));
    TakeCost(s, p, recognised, legs, limits);
    TakeFields(s, p, recognised, legs);
    MeasureWith(s, p, rest, limits);
    MeasureWithWorker(t, p, s'.WorkerOf(p), limits);
    hide TakeJob;
    SameMeasure(t.WithWorker(p, s'.WorkerOf(p)), s', limits);
  }

  lemma {:induction false} HeadCosts(inbox: Inbox, bm: set<Key>, limits: Limits)
    requires inbox.queue != []
    ensures InboxCosts(inbox, bm, limits) ==
            InboxCosts(inbox.(queue := inbox.queue[1..]), bm, limits) + Costs(inbox.queue[0], bm, limits, 0)
  {
    JobCostsHead(inbox.queue, bm, limits);
    hide JobCosts;
    hide AlbumCosts;
    hide Costs;
  }

  /** Of what the measure looks at, taking a job changes its queue and its worker. */
  lemma {:induction false} TakeFields(s: State, p: Platform, recognised: set<Key>, legs: seq<Leg>)
    requires s.b.At(p).queue != []
    ensures var s', inbox := TakeJob(s, p, recognised, legs), s.b.At(p);
            && s'.inflight == s.inflight && s'.bridgeMade == s.bridgeMade
            && s'.b.At(p) == inbox.(queue := inbox.queue[1..]) && s'.b.At(Other(p)) == s.b.At(Other(p))
            && s'.WorkerOf(Other(p)) == s.WorkerOf(Other(p))
  {
    hide Survivors;
    hide Sift;
  }

  lemma {:induction false} CostsAtLeastLength(keys: seq<Key>, bm: set<Key>, limits: Limits)
    ensures Costs(keys, bm, limits, 0) >= |keys|
  {
    if keys != [] {
      CostsAtLeastLength(keys[..|keys| - 1], bm, limits);
    }
  }

  /** After taking a job the worker has at most the planned pairs to serve. */
  lemma {:induction false} TakenWork(s: State, p: Platform, recognised: set<Key>, legs: seq<Leg>, limits: Limits)
    requires Enabled(s, Take(p, recognised, legs), limits)
    ensures WorkerCost(Next(s, Take(p, recognised, legs), limits).WorkerOf(p)) <= 4 * Copies(legs) + |legs|
    ensures s.WorkerOf(p).Idle?
    ensures legs != [] ==> !s.b.paused && Survivors(s, p, recognised) != []
    ensures |legs| <= limits.pairs && Copies(legs) <= limits.copies * |Survivors(s, p, recognised)|
  {
    hide Survivors;
    hide Sift;
  }

  lemma {:induction false} TakeCost(s: State, p: Platform, recognised: set<Key>, legs: seq<Leg>, limits: Limits)
    requires Inv(s) && Enabled(s, Take(p, recognised, legs), limits) && !Bounces(s, Take(p, recognised, legs))
    requires s.b.At(p).queue != [] && s.b.At(p).queue[0] != []
    ensures WorkerCost(Next(s, Take(p, recognised, legs), limits).WorkerOf(p)) <
            Costs(s.b.At(p).queue[0], s.bridgeMade, limits, 0)
    ensures s.WorkerOf(p).Idle?
  {
    hide Inv;
    hide Bounces;
    hide Next;
    hide Enabled;
    hide WorkerCost;
    hide Sift;
    hide Unrecognised;
    hide Costs;
    var job := s.b.At(p).queue[0];
    TakenWork(s, p, recognised, legs, limits);
    if legs == [] {
      assert Copies(legs) == 0;
      CostsAtLeastLength(job, s.bridgeMade, limits);
    } else {
      hide Copies;
      var out := Survivors(s, p, recognised);
      SurvivorsAreUsers(s, p, recognised, legs);
      SurvivorsArePaidFor(job, s.b.tokens, recognised, s.bridgeMade, limits);
      PlanCost(limits.copies, limits.pairs, |out|, Copies(legs), |legs|);
    }
  }

  lemma {:induction false} SurvivorsAreUsers(s: State, p: Platform, recognised: set<Key>, legs: seq<Leg>)
    requires Inv(s) && s.b.At(p).queue != [] && !s.b.paused && legs != [] && !Bounces(s, Take(p, recognised, legs))
    ensures forall k | k in Survivors(s, p, recognised) :: k !in s.bridgeMade
  {
    var job := s.b.At(p).queue[0];
    JobNoRepeats(s, p);
    forall k | k in Survivors(s, p, recognised)
      ensures k !in s.bridgeMade
    {
      UnrecognisedExact(Sift(job, s.b.tokens).0, recognised, k);
      SiftExact(job, s.b.tokens, k);
      LedgerIsExact(s, p, k);
    }
  }

  /** Every internal step that bounces nothing strictly lowers the measure. */
  lemma {:induction false} InternalStepLowers(s: State, step: Step, limits: Limits)
    requires Inv(s) && Filled(s) && Enabled(s, step, limits)
    requires !External(step) && !Bounces(s, step)
    ensures Measure(Next(s, step, limits), limits) < Measure(s, limits)
  {
    hide Measure;
    match step
    case Deliver(i, album) => DeliverLowers(s, i, album, limits);
    case Timer(p, gid) => TimerLowers(s, p, gid, limits);
    case Take(p, recognised, legs) => TakeLowers(s, p, recognised, legs, limits);
    case Send(p) => SendLowers(s, p, limits);
    case Record(p, _) => NextPairLowers(s, Next(s, step, limits), p, limits);
    case Fail(p) => NextPairLowers(s, Next(s, step, limits), p, limits);
  }

  /** What one user post or replacement adds to the measure, at most. */
  function PostCost(limits: Limits): nat
  {
    3 + 4 * limits.copies + limits.pairs
  }

  lemma {:induction false} ExternalStepCost(s: State, step: Step, limits: Limits)
    requires Inv(s) && Enabled(s, step, limits) && External(step)
    ensures Measure(Next(s, step, limits), limits) <= Measure(s, limits) + (if Input(step) then PostCost(limits) else 0)
  {
    hide InboxCosts;
    hide Costs;
    match step
    case Post(p, chat) =>
      var k := Key(p, chat, s.next);
      assert KeyInv(s, k);
      FreshKey(s, k);
      hide Inv;
      hide KeyInv;
      CostsAppend(s.inflight, k, s.bridgeMade, limits, 2);
    case Replace(p, leg) =>
      assert [leg][..0] == [] && Copies([leg]) == leg.remaining;
      hide Measure;
      MeasureWithWorker(s, p, Busy([leg], []), limits);
    case Edit(k) => SameMeasure(s, Next(s, step, limits), limits);
    case Prune(_) => SameMeasure(s, Next(s, step, limits), limits);
    case SetPaused(_) => SameMeasure(s, Next(s, step, limits), limits);
  }

  // ------------------------------------------------ whole runs

  function Inputs(steps: seq<Step>): nat
  {
    if steps == [] then 0 else Inputs(steps[..|steps| - 1]) + (if Input(steps[|steps| - 1]) then 1 else 0)
  }

  function InternalSteps(steps: seq<Step>): nat
  {
    if steps == [] then 0 else InternalSteps(steps[..|steps| - 1]) + (if External(steps[|steps| - 1]) then 0 else 1)
  }

  lemma {:induction false} PrefixCounts(steps: seq<Step>, n: nat)
    requires 0 < n <= |steps|
    ensures Inputs(steps[..n]) == Inputs(steps[..n - 1]) + (if Input(steps[n - 1]) then 1 else 0)
    ensures InternalSteps(steps[..n]) == InternalSteps(steps[..n - 1]) + (if External(steps[n - 1]) then 0 else 1)
  {
    assert steps[..n][..n - 1] == steps[..n - 1];
  }

  /** One step keeps the account: `internal` steps so far and the measure are paid for by `inputs` inputs. */
  lemma {:induction false} StepIsPaidFor(s: State, step: Step, limits: Limits, internal: nat, inputs: nat)
    requires Inv(s) && Filled(s) && Enabled(s, step, limits) && !Bounces(s, step)
    requires internal + Measure(s, limits) <= inputs * PostCost(limits)
    ensures Input(step) ==> internal + Measure(Next(s, step, limits), limits) <= (inputs + 1) * PostCost(limits)
    ensures !Input(step) && External(step) ==>
            internal + Measure(Next(s, step, limits), limits) <= inputs * PostCost(limits)
    ensures !External(step) ==> internal + 1 + Measure(Next(s, step, limits), limits) <= inputs * PostCost(limits)
  {
    hide Measure;
    hide Filled;
    hide Inv;
    hide Enabled;
    hide Next;
    hide Bounces;
    hide PostCost;
    if External(step) {
      ExternalStepCost(s, step, limits);
      Distribute(inputs, PostCost(limits));
    } else {
      InternalStepLowers(s, step, limits);
    }
  }

  lemma {:induction false} StartAccount(limits: Limits)
    ensures Measure(Start, limits) == 0 && Filled(Start)
  {
  }

  lemma {:induction false} RunBound(states: seq<State>, steps: seq<Step>, limits: Limits, n: nat)
    requires IsRun(states, steps, limits) && n <= |steps|
    requires forall i | 0 <= i < n :: !Bounces(states[i], steps[i])
    ensures Filled(states[n])
    ensures InternalSteps(steps[..n]) + Measure(states[n], limits) <= Inputs(steps[..n]) * PostCost(limits)
  {
    hide Measure;
    hide Filled;
    hide Inv;
    hide Enabled;
    hide Next;
    hide Bounces;
    hide PostCost;
    if n == 0 {
      StartAccount(limits);
    } else {
      hide Inputs;
      hide InternalSteps;
      RunBound(states, steps, limits, n - 1);
      InvOverRuns(states, steps, limits, n - 1);
      StepKeepsFilled(states[n - 1], steps[n - 1], limits);
      StepIsPaidFor(states[n - 1], steps[n - 1], limits, InternalSteps(steps[..n - 1]), Inputs(steps[..n - 1]));
      PrefixCounts(steps, n);
    }
  }

  /**
   In a run where nothing bounces, the system's own steps are bounded by the number of
   user posts and replacements: each pays for at most `PostCost` of them.
   */
  lemma {:induction false} RunsAreBounded(states: seq<State>, steps: seq<Step>, limits: Limits)
    requires IsRun(states, steps, limits) && LoopFree(states[|steps|])
    ensures InternalSteps(steps) + Measure(states[|steps|], limits) <= Inputs(steps) * PostCost(limits)
  {
    NoLoops(states, steps, limits);
    RunBound(states, steps, limits, |steps|);
    assert steps[..|steps|] == steps;
  }

  /** Nothing is in flight, buffered, queued or being sent. */
  predicate Quiescent(s: State)
  {
    && s.inflight == []
    && s.b.tg == Inbox([], []) && s.b.bale == Inbox([], [])
    && WorkerCost(s.tgWorker) == 0 && WorkerCost(s.baleWorker) == 0
  }

  /** A step by which the system itself moves on. */
  function OwnStep(s: State, limits: Limits): (step: Step)
    requires Filled(s) && !Quiescent(s)
    requires HasWork(s.tgWorker) && HasWork(s.baleWorker)
    ensures Enabled(s, step, limits) && !External(step)
  {
    if s.inflight != [] then Deliver(0, None)
    else if s.tgWorker.Busy? then OwnWorkerStep(s, Tg, limits)
    else if s.baleWorker.Busy? then OwnWorkerStep(s, Bale, limits)
    else if s.b.tg != Inbox([], []) then OwnInboxStep(s, Tg, limits)
    else OwnInboxStep(s, Bale, limits)
  }

  function OwnInboxStep(s: State, p: Platform, limits: Limits): (step: Step)
    requires s.WorkerOf(p).Idle? && s.b.At(p) != Inbox([], [])
    ensures Enabled(s, step, limits) && !External(step)
  {
    if s.b.At(p).albums != [] then
      FirstAlbumFound(s.b.At(p).albums);
      Timer(p, s.b.At(p).albums[0].key)
    else
      NothingPlanned(s, p, limits);
      Take(p, {}, [])
  }

  lemma {:induction false} FirstAlbumFound(albums: seq<Albums.Album<nat, Key>>)
    requires albums != []
    ensures Albums.Find(albums, albums[0].key) < |albums|
  {
  }

  lemma {:induction false} NothingPlanned(s: State, p: Platform, limits: Limits)
    requires s.WorkerOf(p).Idle? && s.b.At(p).queue != []
    ensures Enabled(s, Take(p, {}, []), limits)
  {
    hide Survivors;
    assert 0 <= limits.copies * |Survivors(s, p, {})|;
  }

  function OwnWorkerStep(s: State, p: Platform, limits: Limits): (step: Step)
    requires s.WorkerOf(p).Busy? && s.WorkerOf(p).legs != []
    ensures Enabled(s, step, limits) && !External(step)
  {
    if s.WorkerOf(p).legs[0].remaining > 0 then Send(p) else Record(p, multiset(s.WorkerOf(p).made))
  }

  /** The measure is zero exactly at rest. */
  lemma {:induction false} MeasureZeroAtRest(s: State, limits: Limits)
    requires Filled(s)
    ensures Measure(s, limits) == 0 <==> Quiescent(s)
  {
    FilledCosts(s.b.tg, s.bridgeMade, limits);
    FilledCosts(s.b.bale, s.bridgeMade, limits);
    CostsZero(s.inflight, s.bridgeMade, limits);
    hide InboxCosts;
    hide Costs;
  }

  lemma {:induction false} CostsZero(keys: seq<Key>, bm: set<Key>, limits: Limits)
    ensures Costs(keys, bm, limits, 2) == 0 <==> keys == []
  {
  }

  lemma {:induction false} FilledCosts(inbox: Inbox, bm: set<Key>, limits: Limits)
    requires InboxFilled(inbox)
    ensures InboxCosts(inbox, bm, limits) == 0 <==> inbox == Inbox([], [])
  {
    if inbox.queue != [] {
      CostsAtLeastLength(inbox.queue[|inbox.queue| - 1], bm, limits);
    }
    if inbox.albums != [] {
      var items := inbox.albums[|inbox.albums| - 1].items;
      CostsSorted(items, bm, limits);
    }
  }

  /** Workers never sit on an empty list of pairs, so a system that is not at rest can always move on. */
  lemma {:induction false} NeverStuck(states: seq<State>, steps: seq<Step>, limits: Limits, n: nat)
    requires IsRun(states, steps, limits) && n <= |steps|
    requires forall i | 0 <= i < n :: !Bounces(states[i], steps[i])
    ensures Measure(states[n], limits) == 0 <==> Quiescent(states[n])
    ensures !Quiescent(states[n]) ==>
              exists step :: Enabled(states[n], step, limits) && !External(step)
  {
    hide Measure;
    hide Filled;
    RunBound(states, steps, limits, n);
    MeasureZeroAtRest(states[n], limits);
    WorkersHaveWork(states, steps, limits, n);
    if !Quiescent(states[n]) {
      var step := OwnStep(states[n], limits);
    }
  }

  /** A worker that is busy has a pair to serve. */
  predicate HasWork(w: Worker)
  {
    w.Busy? ==> w.legs != []
  }

  lemma {:induction false} WorkersHaveWork(states: seq<State>, steps: seq<Step>, limits: Limits, n: nat)
    requires IsRun(states, steps, limits) && n <= |steps|
    ensures HasWork(states[n].tgWorker) && HasWork(states[n].baleWorker)
  {
    if n > 0 {
      hide Next;
      hide HasWork;
      hide Enabled;
      WorkersHaveWork(states, steps, limits, n - 1);
      StepKeepsWork(states[n - 1], steps[n - 1], limits);
    }
  }

  lemma {:induction false} StepKeepsWork(s: State, step: Step, limits: Limits)
    requires Enabled(s, step, limits) && HasWork(s.tgWorker) && HasWork(s.baleWorker)
    ensures HasWork(Next(s, step, limits).tgWorker) && HasWork(Next(s, step, limits).baleWorker)
  {
    hide OnNew;
    hide OnTimer;
    hide OnEdit;
    hide Survivors;
    hide Sift;
  }
}
