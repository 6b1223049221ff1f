/**
 What every interleaving of the deletion protocol keeps: the bridge's own deletions are
 never queued, and the echo sets hold exactly what is still on its way.
 */
module DeleteSafety {
  import opened Sequences
  import opened Messages
  import opened MessageMap
  import opened DeleteProtocol
  import MirrorProtocol

  /** Some worker has asked for `k` to be deleted and it has not happened. */
  predicate Asked(s: State, k: Key)
  {
    s.tgWorker.Asks(k) || s.baleWorker.Asks(k)
  }

  /** The deletions of `k` reported by the bridge's call, by users, and accepted. */
  function Echoes(s: State, k: Key): nat
  {
    Reported(s.inflight, true)[k]
  }

  function Wanted(s: State, k: Key): nat
  {
    Reported(s.inflight, false)[k] + Accepted(s)[k]
  }

  /** An edit is about to delete the old copy `k`. */
  predicate Replacing(s: State, k: Key)
  {
    s.tgWorker.Replaces(k)
  }

  ghost predicate KeyInv(s: State, k: Key, selfBot: bool)
  {
    && Echoes(s, k) + Wanted(s, k) <= 1
    && (Echoes(s, k) + Wanted(s, k) == 1 ==> k in s.known && k !in s.live && k !in s.spent)
    && (k in s.live || k in s.used || k in s.spent ==> k in s.known)
    && (k in s.called ==> k in s.used)
    && (k in s.byBridge ==> k in s.called && k !in s.live)
    && (k in s.spent ==> k !in s.byBridge && k !in s.live)
    && (Echoes(s, k) == 1 ==> k in s.ignore && k in s.byBridge)
    && (Wanted(s, k) == 1 ==> k !in s.byBridge)
    && (Asked(s, k) ==> k in s.called && k !in s.byBridge)
    && ((Asked(s, k) || Replacing(s, k)) && k in s.live && Reports(k.platform, selfBot) ==> k in s.ignore)
    && (k in s.ignore ==>
        Replacing(s, k) || k in s.leaked || (Reports(k.platform, selfBot) && (Echoes(s, k) == 1 || Asked(s, k))))
  }

  /** Each message is in at most one row, and rows carry different ids. */
  ghost predicate RowsInv(s: State)
  {
    && (forall i, j | 0 <= i < j < |s.rows| :: Apart(s.rows[i], s.rows[j]))
    && (forall row | row in s.rows :: RowInv(s, row))
  }

  predicate Apart(a: Row, b: Row)
  {
    a.id != b.id && a.src != b.src && a.src != b.dst && a.dst != b.src && a.dst != b.dst
  }

  /** A row joins both platforms, unless the copy of an edited Telegram copy took the Telegram end. */
  predicate RowInv(s: State, row: Row)
  {
    && row.src in s.used && row.dst in s.used && row.id in s.ids
    && (row.src.platform == row.dst.platform ==> row.src.platform == Bale)
    && (row.src.platform != row.dst.platform ==> EndInv(s, row, row.src) && EndInv(s, row, row.dst))
  }

  /** The bridge deletes an end of a row once the deletion of its partner was looked up, or is about to drop it. */
  predicate EndInv(s: State, row: Row, k: Key)
  {
    k in s.byBridge ==>
      if k.platform == Tg then BaleHolds(s, row.id) else Opposite(row, k) in s.spent || TgHolds(s, row.id)
  }

  /** The worker of Bale events is deleting for this row, which it then removes. */
  predicate BaleHolds(s: State, id: nat)
  {
    s.baleWorker.Working? && s.baleWorker.call.Some? && s.baleWorker.call.value.hit.row == id
  }

  /** An edit has deleted the old copy of this row, which it then redirects. */
  predicate TgHolds(s: State, id: nat)
  {
    s.tgWorker.Editing? && s.tgWorker.phase == Deleting(true) && s.tgWorker.hit.row == id
  }

  ghost predicate WorkerInv(s: State, p: Platform)
  {
    match s.WorkerOf(p)
    case Idle => true
    case Working(_, hits, call) =>
      && |hits| <= 1
      && (hits != [] && hits[0].end.platform == Other(p) ==> HitInv(s, p, hits[0]))
      && (call.Some? ==> hits == [] && call.value.hit.end.platform == Other(p))
      && (call.Some? && !call.value.done ==> HitInv(s, p, call.value.hit))
    case Editing(hit, phase) => p == Tg && EditInv(s, hit, phase)
  }

  /** A message to be deleted: the bridge has not deleted it yet, and its partner's deletion was looked up. */
  ghost predicate HitInv(s: State, p: Platform, hit: Hit)
  {
    && hit.end in s.used && hit.end !in s.byBridge
    && forall row | row in s.rows && Ends(row, hit.end) ::
        row.id == hit.row && (p == Tg ==> Opposite(row, hit.end) in s.spent)
  }

  /** A copy to be replaced. */
  ghost predicate EditInv(s: State, hit: Hit, phase: Phase)
  {
    && hit.end.platform == Bale && hit.end in s.used && (phase.Deleting? ==> hit.end in s.called)
    && (hit.end in s.byBridge ==> phase == Deleting(true))
    && forall row | row in s.rows && Ends(row, hit.end) :: row.id == hit.row
  }

  predicate On(p: Platform, keys: seq<Key>)
  {
    forall i | 0 <= i < |keys| :: keys[i].platform == p
  }

  /** Deletions stay on the platform they were reported on. */
  ghost predicate Placed(s: State)
  {
    && (forall i | 0 <= i < |s.inflight| :: On(s.inflight[i].p, s.inflight[i].keys))
    && (forall i | 0 <= i < |s.tgQueue| :: On(Tg, s.tgQueue[i])) && On(Tg, s.tgWorker.Todo())
    && (forall i | 0 <= i < |s.baleQueue| :: On(Bale, s.baleQueue[i])) && On(Bale, s.baleWorker.Todo())
  }

  ghost predicate Inv(s: State, selfBot: bool)
  {
    && (forall k :: KeyInv(s, k, selfBot))
    && RowsInv(s)
    && WorkerInv(s, Tg) && WorkerInv(s, Bale)
    && Placed(s)
  }

  // ------------------------------------------------ the look-up finds at most one message

  lemma {:induction false} HitHasRow(rows: seq<Row>, k: Key, h: Hit) returns (i: nat)
    requires h in OtherSide(rows, k, None)
    ensures i < |rows| && Joins(rows[i], k, h.end, h.pair)
  {
    LookupSound(rows, k, None);
    var row :| row in rows && row.id == h.row && Joins(row, k, h.end, h.pair);
    i :| 0 <= i < |rows| && rows[i] == row;
  }

  lemma {:induction false} AtMostOneHit(s: State, k: Key)
    requires RowsInv(s)
    ensures |OtherSide(s.rows, k, None)| <= 1
  {
    var hits := OtherSide(s.rows, k, None);
    if |hits| > 1 {
      LookupSound(s.rows, k, None);
      var i := HitHasRow(s.rows, k, hits[0]);
      var j := HitHasRow(s.rows, k, hits[1]);
    }
  }

  /** The row a hit came from is the only one with either end. */
  lemma {:induction false} HitRow(s: State, k: Key, h: Hit) returns (i: nat)
    requires RowsInv(s) && h in OtherSide(s.rows, k, None)
    ensures i < |s.rows| && s.rows[i].id == h.row && Joins(s.rows[i], k, h.end, h.pair) && RowInv(s, s.rows[i])
    ensures forall row | row in s.rows && Ends(row, h.end) :: row == s.rows[i]
  {
    hide OtherSide;
    hide RowsInv;
    LookupSound(s.rows, k, None);
    var row :| row in s.rows && row.id == h.row && Joins(row, k, h.end, h.pair);
    i :| 0 <= i < |s.rows| && s.rows[i] == row;
    OnlyRowWith(s, i, h.end);
  }

  lemma {:induction false} OnlyRowWith(s: State, i: nat, k: Key)
    requires RowsInv(s) && i < |s.rows| && Ends(s.rows[i], k)
    ensures RowInv(s, s.rows[i]) && forall row | row in s.rows && Ends(row, k) :: row == s.rows[i]
  {
    hide RowInv;
    assert s.rows[i] in s.rows;
    forall row | row in s.rows && Ends(row, k)
      ensures row == s.rows[i]
    {
      var j :| 0 <= j < |s.rows| && s.rows[j] == row;
    }
  }

  /** What looking up a deletion gives: nothing, or the partner, which the bridge has not deleted yet. */
  lemma {:induction false} LookupInv(s: State, p: Platform, k: Key)
    requires RowsInv(s) && k !in s.spent && k.platform == p && s.WorkerOf(p).Working? && s.WorkerOf(p).call == None
    ensures var hits := OtherSide(s.rows, k, None);
            && |hits| <= 1
            && (hits != [] && hits[0].end.platform == Other(p) ==> HitInv(s.(spent := s.spent + {k}), p, hits[0]))
  {
    AtMostOneHit(s, k);
    var hits := OtherSide(s.rows, k, None);
    if hits != [] {
      var i := HitRow(s, k, hits[0]);
      hide RowsInv;
      hide OtherSide;
    }
  }

  /** What an edit finds: a copy the bridge has not deleted. */
  lemma {:induction false} CopyInv(s: State, k: Key)
    requires RowsInv(s) && Enabled(s, TakeEdit(k))
    ensures EditInv(s, CopyOf(s.rows, k).value, Looked)
  {
    var hits := OtherSide(s.rows, k, None);
    var i := HitRow(s, k, hits[0]);
    hide RowsInv;
    hide OtherSide;
  }

  const Start := State({}, {}, [], {}, {}, [], {}, [], [], Idle, Idle, {}, {}, {}, {})

  lemma {:induction false} InvAtStart(selfBot: bool)
    ensures Inv(Start, selfBot)
  {
  }

  // ------------------------------------------------ one message, step by step

  lemma {:induction false} SameCounts(s: State, t: State, k: Key)
    requires s.inflight == t.inflight && s.tgQueue == t.tgQueue && s.baleQueue == t.baleQueue
    requires s.tgWorker.Todo() == t.tgWorker.Todo() && s.baleWorker.Todo() == t.baleWorker.Todo()
    ensures Echoes(s, k) == Echoes(t, k) && Wanted(s, k) == Wanted(t, k)
  {
    SameAccepted(s, t);
  }

  lemma {:induction false} QuietKeeps(s: State, step: Step, selfBot: bool, k: Key)
    requires Enabled(s, step) && (step.Create? || step.NewRow? || step.Pass? || step.ReturnOk? || step.Finish?
                              || step.TakeEdit? || step.EndEdit?)
    requires KeyInv(s, k, selfBot) && WorkerInv(s, Tg)
    ensures KeyInv(Next(s, step, selfBot), k, selfBot)
  {
    QuietFields(s, step, selfBot, k);
    hide Next;
    hide Enabled;
    hide Echoes;
    hide Wanted;
    hide HitInv;
    hide Asked;
    SameCounts(s, Next(s, step, selfBot), k);
  }

  /** Such a step adds messages, rows or no more than a worker's next task. */
  lemma {:induction false} QuietFields(s: State, step: Step, selfBot: bool, k: Key)
    requires Enabled(s, step) && (step.Create? || step.NewRow? || step.Pass? || step.ReturnOk? || step.Finish?
                              || step.TakeEdit? || step.EndEdit?)
    ensures var t := Next(s, step, selfBot);
            && t.inflight == s.inflight && t.tgQueue == s.tgQueue && t.baleQueue == s.baleQueue
            && t.tgWorker.Todo() == s.tgWorker.Todo() && t.baleWorker.Todo() == s.baleWorker.Todo()
            && t.ignore == s.ignore && t.called == s.called && t.byBridge == s.byBridge
            && t.spent == s.spent && t.leaked == s.leaked
            && s.known <= t.known && (k in t.known && k !in s.known <==> step == Create(k))
            && (k in t.live <==> k in s.live || step == Create(k)) && (step == Create(k) ==> k !in s.known)
            && s.used <= t.used && (k in t.used && k !in s.used ==> k in s.known)
            && (Asked(t, k) <==> Asked(s, k)) && (Replacing(t, k) <==> Replacing(s, k))
  {
    hide OtherSide;
    hide Without;
  }

  lemma {:induction false} UserDeleteCounts(s: State, p: Platform, keys: seq<Key>, selfBot: bool, k: Key)
    requires Distinct(keys)
    requires Enabled(s, UserDelete(p, keys))
    ensures var t := Next(s, UserDelete(p, keys), selfBot);
            && Echoes(t, k) == Echoes(s, k)
            && Wanted(t, k) == Wanted(s, k) + (if k in keys && Reports(p, selfBot) then 1 else 0)
  {
    ReportedAppend(s.inflight, Event(p, keys, false), true, k);
    ReportedAppend(s.inflight, Event(p, keys, false), false, k);
    DistinctCount(keys, k);
    hide Reported;
    SameAccepted(s, Next(s, UserDelete(p, keys), selfBot));
  }

  lemma {:induction false} UserDeleteKeeps(s: State, p: Platform, keys: seq<Key>, selfBot: bool, k: Key)
    requires KeyInv(s, k, selfBot) && Enabled(s, UserDelete(p, keys))
    ensures KeyInv(Next(s, UserDelete(p, keys), selfBot), k, selfBot)
  {
    UserDeleteCounts(s, p, keys, selfBot, k);
    UserDeleteFields(s, p, keys, selfBot);
    hide Next;
    hide Echoes;
    hide Wanted;
  }

  lemma {:induction false} UserDeleteFields(s: State, p: Platform, keys: seq<Key>, selfBot: bool)
    requires Enabled(s, UserDelete(p, keys))
    ensures var t := Next(s, UserDelete(p, keys), selfBot);
            t == s.(live := s.live - (set k | k in keys), inflight := t.inflight)
    ensures forall k | k in keys :: k in s.live && k.platform == p
  {
  }

  lemma {:induction false} DeliverCounts(s: State, i: nat, selfBot: bool, k: Key)
    requires i < |s.inflight|
    ensures var e, t := s.inflight[i], Next(s, Deliver(i), selfBot);
            var n := multiset(e.keys)[k];
            && Echoes(s, k) == Echoes(t, k) + (if e.byBridge then n else 0)
            && Wanted(s, k) + (if e.byBridge then n else 0) == Wanted(t, k) + (if k in s.ignore then n else 0)
  {
    var e := s.inflight[i];
    var r := s.(inflight := RemoveAt(s.inflight, i));
    assert Next(s, Deliver(i), selfBot) == Delivered(r, e);
    hide Next;
    hide Reported;
    hide Delivered;
    hide Accepted;
    hide RemoveAt;
    ReportedRemove(s.inflight, i, true, k);
    ReportedRemove(s.inflight, i, false, k);
    DeliveredCounts(r, e, k);
    SameAccepted(s, r);
  }

  lemma {:induction false} DeliveredCounts(r: State, e: Event, k: Key)
    ensures Delivered(r, e).inflight == r.inflight
    ensures Accepted(Delivered(r, e))[k] == Accepted(r)[k] + (if k in r.ignore then 0 else multiset(e.keys)[k])
  {
    var kept := Kept(e.keys, r.ignore);
    KeptCount(e.keys, r.ignore, k);
    if kept != [] {
      MirrorProtocol.JobKeysAppend(r.QueueOf(e.p), kept);
      hide MirrorProtocol.JobKeys;
      var q := r.QueueOf(e.p) + [kept];
      AcceptedDelta(r, e.p, q, r.WorkerOf(e.p), k);
      SameAccepted(r.WithQueue(e.p, q).WithWorker(e.p, r.WorkerOf(e.p)), Delivered(r, e));
    } else {
      SameAccepted(r, Delivered(r, e));
    }
  }

  lemma {:induction false} DeliverKeeps(s: State, i: nat, selfBot: bool, k: Key)
    requires KeyInv(s, k, selfBot) && i < |s.inflight|
    ensures KeyInv(Next(s, Deliver(i), selfBot), k, selfBot)
  {
    DeliverCounts(s, i, selfBot, k);
    CountIn(s.inflight[i].keys, k);
    DeliveredFields(s, i, selfBot);
    hide Echoes;
    hide Wanted;
    hide Next;
  }

  lemma {:induction false} DeliveredFields(s: State, i: nat, selfBot: bool)
    requires i < |s.inflight|
    ensures var keys, t := s.inflight[i].keys, Next(s, Deliver(i), selfBot);
            && t == s.(inflight := t.inflight, tgQueue := t.tgQueue, baleQueue := t.baleQueue,
                       ignore := t.ignore, leaked := t.leaked)
            && t.ignore == s.ignore - (set k | k in keys) && t.leaked == s.leaked - (set k | k in keys)
  {
  }

  lemma {:induction false} TakenCounts(s: State, p: Platform, w: Worker, k: Key)
    requires s.QueueOf(p) != [] && s.WorkerOf(p).Idle? && (w.Idle? || w == Working(s.QueueOf(p)[0], [], None))
    ensures var t := s.WithQueue(p, s.QueueOf(p)[1..]).WithWorker(p, w);
            && Echoes(t, k) == Echoes(s, k) && Wanted(t, k) <= Wanted(s, k)
  {
    hide Reported;
    MirrorProtocol.JobKeysHead(s.QueueOf(p));
    hide MirrorProtocol.JobKeys;
    AcceptedDelta(s, p, s.QueueOf(p)[1..], w, k);
  }

  lemma {:induction false} TakeKeeps(s: State, step: Step, selfBot: bool, k: Key)
    requires Enabled(s, step) && (step.Take? || step.Drop?)
    requires KeyInv(s, k, selfBot)
    ensures KeyInv(Next(s, step, selfBot), k, selfBot)
  {
    hide Echoes;
    hide Wanted;
    if step.Take? {
      TakenCounts(s, step.p, Working(s.QueueOf(step.p)[0], [], None), k);
    } else {
      TakenCounts(s, step.p, s.WorkerOf(step.p), k);
      assert Next(s, step, selfBot) ==
          s.WithQueue(step.p, s.QueueOf(step.p)[1..]).WithWorker(step.p, s.WorkerOf(step.p));
    }
  }

  lemma {:induction false} WorkerCounts(s: State, p: Platform, w: Worker, k: Key)
    ensures var t := s.WithWorker(p, w);
            && Echoes(t, k) == Echoes(s, k)
            && Wanted(t, k) + multiset(s.WorkerOf(p).Todo())[k] == Wanted(s, k) + multiset(w.Todo())[k]
  {
    hide Reported;
    AcceptedDelta(s, p, s.QueueOf(p), w, k);
    assert s.WithQueue(p, s.QueueOf(p)) == s;
  }

  lemma {:induction false} NextIdKeeps(s: State, p: Platform, selfBot: bool, k: Key)
    requires Enabled(s, NextId(p)) && KeyInv(s, k, selfBot)
    ensures KeyInv(Next(s, NextId(p), selfBot), k, selfBot)
  {
    hide Echoes;
    hide Wanted;
    hide OtherSide;
    var w := s.WorkerOf(p);
    var t := Next(s, NextId(p), selfBot);
    WorkerCounts(s, p, t.WorkerOf(p), k);
    HeadCount(w.todo, k);
    SameCounts(s.WithWorker(p, t.WorkerOf(p)), t, k);
    NextIdFields(s, p, selfBot, k);
    hide Next;
    hide Asked;
    hide Replacing;
  }

  lemma {:induction false} NextIdFields(s: State, p: Platform, selfBot: bool, k: Key)
    requires Enabled(s, NextId(p))
    ensures var t := Next(s, NextId(p), selfBot);
            && t.known == s.known && t.live == s.live && t.used == s.used && t.called == s.called
            && t.byBridge == s.byBridge && t.ignore == s.ignore && t.leaked == s.leaked
            && t.spent == s.spent + {s.WorkerOf(p).todo[0]}
            && (Asked(t, k) <==> Asked(s, k)) && (Replacing(t, k) <==> Replacing(s, k))
  {
    hide OtherSide;
  }

  lemma {:induction false} AskKeeps(s: State, p: Platform, selfBot: bool, k: Key)
    requires Enabled(s, Ask(p)) && WorkerInv(s, p) && KeyInv(s, k, selfBot)
    ensures KeyInv(Next(s, Ask(p), selfBot), k, selfBot)
  {
    hide Echoes;
    hide Wanted;
    SameCounts(s, Next(s, Ask(p), selfBot), k);
  }

  lemma {:induction false} EffectFields(s: State, p: Platform, selfBot: bool)
    requires Enabled(s, Effect(p))
    ensures var end, t := CallOf(s, p).value.hit.end, Next(s, Effect(p), selfBot);
            && t.live == s.live - {end} && t.byBridge == s.byBridge + {end}
            && t.inflight == (if Reports(end.platform, selfBot) then s.inflight + [Event(end.platform, [end], true)]
                              else s.inflight)
            && t.known == s.known && t.used == s.used && t.spent == s.spent && t.called == s.called
            && t.ignore == s.ignore && t.leaked == s.leaked && t.rows == s.rows
            && t.tgQueue == s.tgQueue && t.baleQueue == s.baleQueue
            && t.WorkerOf(p) == s.WorkerOf(p).(call := Some(Call(CallOf(s, p).value.hit, true)))
            && t.WorkerOf(Other(p)) == s.WorkerOf(Other(p))
  {
  }

  lemma {:induction false} EffectCounts(s: State, p: Platform, selfBot: bool, k: Key)
    requires Enabled(s, Effect(p))
    ensures var end, t := CallOf(s, p).value.hit.end, Next(s, Effect(p), selfBot);
            && Wanted(t, k) == Wanted(s, k)
            && Echoes(t, k) == Echoes(s, k) + (if k == end && Reports(end.platform, selfBot) then 1 else 0)
  {
    var end, t := CallOf(s, p).value.hit.end, Next(s, Effect(p), selfBot);
    var e := Event(end.platform, [end], true);
    EffectFields(s, p, selfBot);
    hide Next;
    ReportedAppend(s.inflight, e, true, k);
    ReportedAppend(s.inflight, e, false, k);
    hide Reported;
    assert multiset([end]) == multiset{end};
    assert t.tgWorker.Todo() == s.tgWorker.Todo() && t.baleWorker.Todo() == s.baleWorker.Todo();
    SameAccepted(s, t);
  }

  /** The message the effect deletes was asked for by this worker only. */
  lemma {:induction false} EffectAsked(s: State, p: Platform, selfBot: bool, k: Key)
    requires Enabled(s, Effect(p)) && WorkerInv(s, p) && WorkerInv(s, Other(p))
    ensures var end, t := CallOf(s, p).value.hit.end, Next(s, Effect(p), selfBot);
            && Asked(s, end) && (Asked(t, k) <==> Asked(s, k) && k != end)
            && (Replacing(t, k) <==> Replacing(s, k)) && !Replacing(s, end)
  {
    EffectFields(s, p, selfBot);
    hide Next;
    hide HitInv;
  }

  lemma {:induction false} EffectKeeps(s: State, p: Platform, selfBot: bool, k: Key)
    requires Enabled(s, Effect(p)) && WorkerInv(s, p) && WorkerInv(s, Other(p)) && KeyInv(s, k, selfBot)
    ensures KeyInv(Next(s, Effect(p), selfBot), k, selfBot)
  {
    hide Next;
    hide Echoes;
    hide Wanted;
    hide WorkerInv;
    EffectCounts(s, p, selfBot, k);
    EffectAsked(s, p, selfBot, k);
    EffectFields(s, p, selfBot);
    hide *;
    KeyAfterDeletion(s, Next(s, Effect(p), selfBot), CallOf(s, p).value.hit.end, selfBot, k);
  }

  /** The bridge deletes `end`, which it was about to. */
  lemma {:induction false} KeyAfterDeletion(s: State, t: State, end: Key, selfBot: bool, k: Key)
    requires KeyInv(s, k, selfBot) && end in s.live
    requires t.known == s.known && t.used == s.used && t.spent == s.spent && t.called == s.called
    requires t.live == s.live - {end} && t.byBridge == s.byBridge + {end} && t.ignore == s.ignore
    requires k == end ==> end in s.called && (Asked(s, k) || Replacing(s, k)) && !Asked(t, k) && !Replacing(t, k)
    requires k != end ==> (Asked(t, k) <==> Asked(s, k)) && (Replacing(t, k) <==> Replacing(s, k))
    requires s.leaked <= t.leaked && (k == end && !Reports(end.platform, selfBot) && Replacing(s, k) ==> k in t.leaked)
    requires Wanted(t, k) == Wanted(s, k)
    requires Echoes(t, k) == Echoes(s, k) + (if k == end && Reports(end.platform, selfBot) then 1 else 0)
    ensures KeyInv(t, k, selfBot)
  {
    hide Echoes;
    hide Wanted;
    hide Asked;
    hide Replacing;
  }

  lemma {:induction false} ReturnFailKeeps(s: State, p: Platform, selfBot: bool, k: Key)
    requires Enabled(s, ReturnFail(p)) && WorkerInv(s, p) && WorkerInv(s, Other(p)) && KeyInv(s, k, selfBot)
    ensures KeyInv(Next(s, ReturnFail(p), selfBot), k, selfBot)
  {
    hide Echoes;
    hide Wanted;
    hide HitInv;
    SameCounts(s, Next(s, ReturnFail(p), selfBot), k);
  }

  lemma {:induction false} AbortKeeps(s: State, p: Platform, selfBot: bool, k: Key)
    requires Enabled(s, Abort(p)) && KeyInv(s, k, selfBot)
    ensures KeyInv(Next(s, Abort(p), selfBot), k, selfBot)
  {
    hide Echoes;
    hide Wanted;
    WorkerCounts(s, p, Idle, k);
    SameCounts(s.WithWorker(p, Idle), Next(s, Abort(p), selfBot), k);
  }

  // ------------------------------------------------ the steps of an edit

  lemma {:induction false} SuppressKeeps(s: State, selfBot: bool, k: Key)
    requires Enabled(s, Suppress) && KeyInv(s, k, selfBot)
    ensures KeyInv(Next(s, Suppress, selfBot), k, selfBot)
  {
    hide Echoes;
    hide Wanted;
    SameCounts(s, Next(s, Suppress, selfBot), k);
  }

  lemma {:induction false} WithdrawKeeps(s: State, selfBot: bool, k: Key)
    requires Enabled(s, Withdraw) && WorkerInv(s, Tg) && WorkerInv(s, Bale) && KeyInv(s, k, selfBot)
    ensures KeyInv(Next(s, Withdraw, selfBot), k, selfBot)
  {
    hide Echoes;
    hide Wanted;
    hide HitInv;
    SameCounts(s, Next(s, Withdraw, selfBot), k);
  }

  lemma {:induction false} AskOldKeeps(s: State, selfBot: bool, k: Key)
    requires Enabled(s, AskOld) && WorkerInv(s, Tg) && KeyInv(s, k, selfBot)
    ensures KeyInv(Next(s, AskOld, selfBot), k, selfBot)
  {
    hide Echoes;
    hide Wanted;
    SameCounts(s, Next(s, AskOld, selfBot), k);
  }

  lemma {:induction false} OldGoneFields(s: State, selfBot: bool)
    requires Enabled(s, OldGone)
    ensures var end, t := s.tgWorker.hit.end, Next(s, OldGone, selfBot);
            && t == s.(live := s.live - {end}, byBridge := s.byBridge + {end}, inflight := t.inflight,
                       leaked := t.leaked, tgWorker := Editing(s.tgWorker.hit, Deleting(true)))
            && t.inflight == (if Reports(end.platform, selfBot) then s.inflight + [Event(end.platform, [end], true)]
                              else s.inflight)
            && t.leaked == (if Reports(end.platform, selfBot) then s.leaked else s.leaked + {end})
            && Replacing(s, end)
  {
  }

  /** The old copy was to be deleted by the edit only. */
  lemma {:induction false} OldGoneAsked(s: State, selfBot: bool, k: Key)
    requires Enabled(s, OldGone) && WorkerInv(s, Tg) && WorkerInv(s, Bale)
    ensures var end, t := s.tgWorker.hit.end, Next(s, OldGone, selfBot);
            && (Asked(t, k) <==> Asked(s, k)) && !Asked(s, end)
            && (Replacing(t, k) <==> Replacing(s, k) && k != end) && end in s.called
  {
    OldGoneFields(s, selfBot);
    hide Next;
    hide HitInv;
  }

  lemma {:induction false} OldGoneCounts(s: State, selfBot: bool, k: Key)
    requires Enabled(s, OldGone)
    ensures var end, t := s.tgWorker.hit.end, Next(s, OldGone, selfBot);
            && Wanted(t, k) == Wanted(s, k)
            && Echoes(t, k) == Echoes(s, k) + (if k == end && Reports(end.platform, selfBot) then 1 else 0)
  {
    var end, t := s.tgWorker.hit.end, Next(s, OldGone, selfBot);
    var e := Event(end.platform, [end], true);
    OldGoneFields(s, selfBot);
    hide Next;
    ReportedAppend(s.inflight, e, true, k);
    ReportedAppend(s.inflight, e, false, k);
    hide Reported;
    assert multiset([end]) == multiset{end};
    SameAccepted(s, t);
  }

  lemma {:induction false} OldGoneKeeps(s: State, selfBot: bool, k: Key)
    requires Enabled(s, OldGone) && WorkerInv(s, Tg) && WorkerInv(s, Bale) && KeyInv(s, k, selfBot)
    ensures KeyInv(Next(s, OldGone, selfBot), k, selfBot)
  {
    OldGoneCounts(s, selfBot, k);
    OldGoneFields(s, selfBot);
    OldGoneAsked(s, selfBot, k);
    assert s.tgWorker.hit.end in s.live;
    hide *;
    KeyAfterDeletion(s, Next(s, OldGone, selfBot), s.tgWorker.hit.end, selfBot, k);
  }

  lemma {:induction false} RedirectKeeps(s: State, copy: Key, selfBot: bool, k: Key)
    requires Enabled(s, Redirect(copy)) && KeyInv(s, k, selfBot)
    ensures KeyInv(Next(s, Redirect(copy), selfBot), k, selfBot)
  {
    hide Echoes;
    hide Wanted;
    SameCounts(s, Next(s, Redirect(copy), selfBot), k);
  }

  lemma {:induction false} StepKeepsKey(s: State, step: Step, selfBot: bool, k: Key)
    requires Enabled(s, step) && KeyInv(s, k, selfBot) && WorkerInv(s, Tg) && WorkerInv(s, Bale)
    ensures KeyInv(Next(s, step, selfBot), k, selfBot)
  {
    hide KeyInv;
    hide WorkerInv;
    hide Next;
    match step
    case UserDelete(p, keys) => UserDeleteKeeps(s, p, keys, selfBot, k);
    case Deliver(i) => DeliverKeeps(s, i, selfBot, k);
    case Drop(_) => TakeKeeps(s, step, selfBot, k);
    case Take(_) => TakeKeeps(s, step, selfBot, k);
    case NextId(p) => NextIdKeeps(s, p, selfBot, k);
    case Ask(p) => AskKeeps(s, p, selfBot, k);
    case Effect(p) => EffectKeeps(s, p, selfBot, k);
    case ReturnFail(p) => ReturnFailKeeps(s, p, selfBot, k);
    case Abort(p) => AbortKeeps(s, p, selfBot, k);
    case Create(_) => QuietKeeps(s, step, selfBot, k);
    case NewRow(_) => QuietKeeps(s, step, selfBot, k);
    case Pass(_) => QuietKeeps(s, step, selfBot, k);
    case ReturnOk(_) => QuietKeeps(s, step, selfBot, k);
    case Finish(_) => QuietKeeps(s, step, selfBot, k);
    case TakeEdit(_) => QuietKeeps(s, step, selfBot, k);
    case EndEdit => QuietKeeps(s, step, selfBot, k);
    case Suppress => SuppressKeeps(s, selfBot, k);
    case Withdraw => WithdrawKeeps(s, selfBot, k);
    case AskOld => AskOldKeeps(s, selfBot, k);
    case OldGone => OldGoneKeeps(s, selfBot, k);
    case Redirect(copy) => RedirectKeeps(s, copy, selfBot, k);
  }

  // ------------------------------------------------ rows and workers

  lemma {:induction false} WithoutApart(rows: seq<Row>, id: nat)
    requires forall i, j | 0 <= i < j < |rows| :: Apart(rows[i], rows[j])
    ensures forall i, j | 0 <= i < j < |Without(rows, id)| :: Apart(Without(rows, id)[i], Without(rows, id)[j])
  {
    if rows != [] {
      var init, last := rows[..|rows| - 1], rows[|rows| - 1];
      WithoutApart(init, id);
      var rest := Without(init, id);
      forall i | 0 <= i < |rest|
        ensures Apart(rest[i], last)
      {
        WithoutExact(init, id, rest[i]);
        var j :| 0 <= j < |init| && init[j] == rest[i];
        assert Apart(rows[j], rows[|rows| - 1]);
      }
    }
  }

  /** The histories only grow. */
  predicate Grows(s: State, t: State)
  {
    s.used <= t.used && s.ids <= t.ids && s.called <= t.called && s.spent <= t.spent
  }

  /** What was held is still held. */
  predicate HoldsOn(s: State, t: State, id: nat)
  {
    (BaleHolds(s, id) ==> BaleHolds(t, id)) && (TgHolds(s, id) ==> TgHolds(t, id))
  }

  lemma {:induction false} RowStays(s: State, t: State, row: Row)
    requires RowInv(s, row) && Grows(s, t) && HoldsOn(s, t, row.id)
    requires forall k | Ends(row, k) && k in t.byBridge :: k in s.byBridge
    ensures RowInv(t, row)
  {
  }

  lemma {:induction false} RemovalKeepsRows(s: State, t: State, id: nat)
    requires RowsInv(s) && t.rows == Without(s.rows, id) && Grows(s, t) && t.byBridge == s.byBridge
    requires forall i | i != id :: HoldsOn(s, t, i)
    ensures RowsInv(t)
    ensures forall row | row in t.rows :: row in s.rows
  {
    hide RowInv;
    WithoutApart(s.rows, id);
    forall row | row in t.rows
      ensures row in s.rows && RowInv(t, row)
    {
      WithoutExact(s.rows, id, row);
      RowStays(s, t, row);
    }
  }

  lemma {:induction false} SameRowsKept(s: State, t: State)
    requires RowsInv(s) && t.rows == s.rows && Grows(s, t) && t.byBridge == s.byBridge
    requires forall id :: HoldsOn(s, t, id)
    ensures RowsInv(t)
  {
    hide RowInv;
    forall row | row in t.rows
      ensures RowInv(t, row)
    {
      RowStays(s, t, row);
    }
  }

  lemma {:induction false} NewRowKeepsRows(s: State, row: Row, selfBot: bool)
    requires RowsInv(s) && Enabled(s, NewRow(row)) && row.src !in s.byBridge && row.dst !in s.byBridge
    ensures RowsInv(Next(s, NewRow(row), selfBot))
  {
    var t := Next(s, NewRow(row), selfBot);
    forall r | r in t.rows
      ensures RowInv(t, r)
    {
      if r in s.rows {
        RowStays(s, t, r);
      }
    }
    forall i, j | 0 <= i < j < |t.rows|
      ensures Apart(t.rows[i], t.rows[j])
    {
      if j < |s.rows| {
        assert Apart(s.rows[i], s.rows[j]);
      } else {
        assert s.rows[i] in s.rows;
        assert RowInv(s, s.rows[i]);
      }
    }
  }

  lemma {:induction false} EffectKeepsRows(s: State, p: Platform, selfBot: bool)
    requires RowsInv(s) && Enabled(s, Effect(p)) && WorkerInv(s, p)
    ensures RowsInv(Next(s, Effect(p), selfBot))
  {
    var hit, t := CallOf(s, p).value.hit, Next(s, Effect(p), selfBot);
    assert HitInv(s, p, hit) && hit.end.platform == Other(p);
    EffectFields(s, p, selfBot);
    hide Next;
    hide WorkerInv;
    forall row | row in t.rows
      ensures RowInv(t, row)
    {
      assert RowInv(s, row);
    }
  }

  lemma {:induction false} OldGoneKeepsRows(s: State, selfBot: bool)
    requires RowsInv(s) && Enabled(s, OldGone) && WorkerInv(s, Tg)
    ensures RowsInv(Next(s, OldGone, selfBot))
  {
    var t := Next(s, OldGone, selfBot);
    OldGoneFields(s, selfBot);
    hide Next;
    forall row | row in t.rows
      ensures RowInv(t, row)
    {
      assert RowInv(s, row);
    }
  }

  /** Where the rows of a redirected table come from. */
  lemma {:induction false} RedirectedAt(rows: seq<Row>, id: nat, dst: Key, i: nat)
    requires i < |rows|
    ensures Redirected(rows, id, dst)[i] == if rows[i].id == id then rows[i].(dst := dst) else rows[i]
  {
    if i < |rows| - 1 {
      RedirectedAt(rows[..|rows| - 1], id, dst, i);
    }
  }

  lemma {:induction false} RedirectedRow(s: State, copy: Key, selfBot: bool, i: nat)
    requires RowsInv(s) && Enabled(s, Redirect(copy)) && copy !in s.byBridge && i < |s.rows|
    ensures var t := Next(s, Redirect(copy), selfBot); RowInv(t, t.rows[i])
  {
    RedirectedAt(s.rows, s.tgWorker.hit.row, copy, i);
    hide Redirected;
    assert s.rows[i] in s.rows;
    assert RowInv(s, s.rows[i]);
    hide RowsInv;
  }

  lemma {:induction false} RedirectKeepsRows(s: State, copy: Key, selfBot: bool)
    requires RowsInv(s) && Enabled(s, Redirect(copy)) && copy !in s.byBridge
    ensures RowsInv(Next(s, Redirect(copy), selfBot))
  {
    var t := Next(s, Redirect(copy), selfBot);
    forall i, j | 0 <= i < j < |t.rows|
      ensures Apart(t.rows[i], t.rows[j])
    {
      RedirectedAt(s.rows, s.tgWorker.hit.row, copy, i);
      RedirectedAt(s.rows, s.tgWorker.hit.row, copy, j);
      assert s.rows[i] in s.rows && s.rows[j] in s.rows;
      assert RowInv(s, s.rows[i]) && RowInv(s, s.rows[j]) && Apart(s.rows[i], s.rows[j]);
    }
    hide RowInv;
    forall row | row in t.rows
      ensures RowInv(t, row)
    {
      var i :| 0 <= i < |t.rows| && t.rows[i] == row;
      RedirectedRow(s, copy, selfBot, i);
    }
  }

  /** The steps that change neither rows nor what the bridge has deleted. */
  lemma {:induction false} QuietKeepsRows(s: State, step: Step, selfBot: bool)
    requires RowsInv(s) && Enabled(s, step)
    requires !step.NewRow? && !step.Effect? && !step.OldGone? && !step.Redirect? && !step.ReturnOk? && !step.ReturnFail?
    ensures RowsInv(Next(s, step, selfBot))
  {
    hide RowsInv;
    hide OtherSide;
    hide Kept;
    SameRowsKept(s, Next(s, step, selfBot));
  }

  lemma {:induction false} ReturnKeepsRows(s: State, step: Step, p: Platform, selfBot: bool)
    requires RowsInv(s) && Enabled(s, step) && (step == ReturnOk(p) || step == ReturnFail(p))
    ensures RowsInv(Next(s, step, selfBot))
    ensures forall row | row in Next(s, step, selfBot).rows :: row in s.rows
  {
    hide RowsInv;
    RemovalKeepsRows(s, Next(s, step, selfBot), CallOf(s, p).value.hit.row);
  }

  /** A message in no row yet was never deleted by the bridge. */
  lemma {:induction false} UnusedNotDeleted(s: State, k: Key, selfBot: bool)
    requires KeyInv(s, k, selfBot) && k !in s.used
    ensures k !in s.byBridge
  {
    hide Echoes;
    hide Wanted;
  }

  lemma {:induction false} StepKeepsRows(s: State, step: Step, selfBot: bool)
    requires Inv(s, selfBot) && Enabled(s, step)
    ensures RowsInv(Next(s, step, selfBot))
  {
    hide RowsInv;
    hide WorkerInv;
    hide KeyInv;
    hide Next;
    match step
    case NewRow(row) =>
      UnusedNotDeleted(s, row.src, selfBot);
      UnusedNotDeleted(s, row.dst, selfBot);
      NewRowKeepsRows(s, row, selfBot);
    case Effect(p) => EffectKeepsRows(s, p, selfBot);
    case OldGone => OldGoneKeepsRows(s, selfBot);
    case Redirect(copy) =>
      UnusedNotDeleted(s, copy, selfBot);
      RedirectKeepsRows(s, copy, selfBot);
    case ReturnOk(p) => ReturnKeepsRows(s, step, p, selfBot);
    case ReturnFail(p) => ReturnKeepsRows(s, step, p, selfBot);
    case _ => QuietKeepsRows(s, step, selfBot);
  }

  /** Every row with an end in use was there before under its id, with that end and, for Telegram, with both. */
  ghost predicate RowsFrom(s: State, t: State, p: Platform)
  {
    forall row, k | row in t.rows && Ends(row, k) && k in s.used ::
      exists r :: r in s.rows && Ends(r, k) && r.id == row.id && (p == Tg ==> r == row)
  }

  /** The worker's own part is unchanged and nothing it relies on has gone. */
  lemma {:induction false} WorkerUntouched(s: State, t: State, p: Platform)
    requires WorkerInv(s, p) && t.WorkerOf(p) == s.WorkerOf(p) && Grows(s, t) && RowsFrom(s, t, p)
    requires forall k: Key | k.platform == Other(p) && k in t.byBridge :: k in s.byBridge
    ensures WorkerInv(t, p)
  {
  }

  lemma {:induction false} FewerRows(s: State, t: State, p: Platform)
    requires forall row | row in t.rows :: row in s.rows || (row.src !in s.used && row.dst !in s.used)
    ensures RowsFrom(s, t, p)
  {
  }

  lemma {:induction false} RedirectRowsFrom(s: State, copy: Key, selfBot: bool)
    requires Enabled(s, Redirect(copy))
    ensures RowsFrom(s, Next(s, Redirect(copy), selfBot), Bale)
  {
    var t := Next(s, Redirect(copy), selfBot);
    forall row, k | row in t.rows && Ends(row, k) && k in s.used
      ensures exists r :: r in s.rows && Ends(r, k) && r.id == row.id
    {
      var i :| 0 <= i < |t.rows| && t.rows[i] == row;
      RedirectedAt(s.rows, s.tgWorker.hit.row, copy, i);
      assert s.rows[i] in s.rows && Ends(s.rows[i], k);
    }
  }

  /** The worker whose step this is. */
  function Acts(step: Step): Option<Platform>
  {
    match step
    case Take(p) => Some(p)
    case NextId(p) => Some(p)
    case Pass(p) => Some(p)
    case Ask(p) => Some(p)
    case Effect(p) => Some(p)
    case ReturnOk(p) => Some(p)
    case ReturnFail(p) => Some(p)
    case Abort(p) => Some(p)
    case Finish(p) => Some(p)
    case Create(_) => None
    case NewRow(_) => None
    case UserDelete(_, _) => None
    case Deliver(_) => None
    case Drop(_) => None
    case _ => Some(Tg)
  }

  lemma {:induction false} NextIdKeepsWorker(s: State, p: Platform, selfBot: bool)
    requires RowsInv(s) && Enabled(s, NextId(p)) && s.WorkerOf(p).todo[0] !in s.spent && On(p, s.WorkerOf(p).todo)
    ensures WorkerInv(Next(s, NextId(p), selfBot), p)
  {
    LookupInv(s, p, s.WorkerOf(p).todo[0]);
    hide OtherSide;
    hide RowsInv;
  }

  lemma {:induction false} FirstIsWanted(s: State, p: Platform, selfBot: bool)
    requires s.WorkerOf(p).Working? && s.WorkerOf(p).todo != [] && KeyInv(s, s.WorkerOf(p).todo[0], selfBot)
    ensures s.WorkerOf(p).todo[0] !in s.spent
  {
    HeadCount(s.WorkerOf(p).todo, s.WorkerOf(p).todo[0]);
    hide Wanted;
    hide Echoes;
  }

  lemma {:induction false} ReturnKeepsWorker(s: State, step: Step, p: Platform, selfBot: bool)
    requires RowsInv(s) && WorkerInv(s, p) && Enabled(s, step) && (step == ReturnOk(p) || step == ReturnFail(p))
    ensures WorkerInv(Next(s, step, selfBot), p)
  {
    ReturnKeepsRows(s, step, p, selfBot);
    hide RowsInv;
  }

  /** The other steps of a worker. */
  lemma {:induction false} QuietKeepsWorker(s: State, step: Step, p: Platform, selfBot: bool)
    requires WorkerInv(s, p) && Enabled(s, step) && Acts(step) == Some(p)
    requires !step.NextId? && !step.ReturnOk? && !step.ReturnFail? && !step.TakeEdit?
    ensures WorkerInv(Next(s, step, selfBot), p)
  {
    hide Redirected;
    hide OtherSide;
  }

  /** The worker that takes the step keeps its part. */
  lemma {:induction false} StepKeepsOwnWorker(s: State, step: Step, p: Platform, selfBot: bool)
    requires Inv(s, selfBot) && Enabled(s, step) && Acts(step) == Some(p)
    ensures WorkerInv(Next(s, step, selfBot), p)
  {
    if step.NextId? {
      assert KeyInv(s, s.WorkerOf(p).todo[0], selfBot) && On(p, s.WorkerOf(p).Todo());
    }
    hide KeyInv;
    hide RowsInv;
    hide WorkerInv;
    hide Placed;
    hide Next;
    if step.NextId? {
      FirstIsWanted(s, p, selfBot);
      NextIdKeepsWorker(s, p, selfBot);
    } else if step.ReturnOk? || step.ReturnFail? {
      ReturnKeepsWorker(s, step, p, selfBot);
    } else if step.TakeEdit? {
      TakeEditKeepsWorker(s, step.k, selfBot);
    } else {
      QuietKeepsWorker(s, step, p, selfBot);
    }
  }

  lemma {:induction false} TakeEditKeepsWorker(s: State, k: Key, selfBot: bool)
    requires RowsInv(s) && Enabled(s, TakeEdit(k))
    ensures WorkerInv(Next(s, TakeEdit(k), selfBot), Tg)
  {
    CopyInv(s, k);
    hide RowsInv;
    hide CopyOf;
  }

  lemma {:induction false} StepKeepsOtherWorker(s: State, step: Step, p: Platform, selfBot: bool)
    requires RowsInv(s) && WorkerInv(s, p) && WorkerInv(s, Other(p)) && Enabled(s, step) && Acts(step) != Some(p)
    ensures WorkerInv(Next(s, step, selfBot), p)
  {
    OtherRowsFrom(s, step, p, selfBot);
    DeletesOwn(s, step, p, selfBot);
    OtherUntouched(s, step, p, selfBot);
    hide *;
    WorkerUntouched(s, Next(s, step, selfBot), p);
  }

  lemma {:induction false} OtherUntouched(s: State, step: Step, p: Platform, selfBot: bool)
    requires Enabled(s, step) && Acts(step) != Some(p)
    ensures Next(s, step, selfBot).WorkerOf(p) == s.WorkerOf(p) && Grows(s, Next(s, step, selfBot))
  {
    StepGrows(s, step, selfBot);
    hide Grows;
    hide Redirected;
    hide OtherSide;
    hide Without;
    hide Kept;
  }

  lemma {:induction false} StepGrows(s: State, step: Step, selfBot: bool)
    requires Enabled(s, step)
    ensures Grows(s, Next(s, step, selfBot))
  {
    hide CopyOf;
    hide Redirected;
    hide OtherSide;
    hide Without;
    hide Kept;
  }

  lemma {:induction false} OtherRowsFrom(s: State, step: Step, p: Platform, selfBot: bool)
    requires RowsInv(s) && Enabled(s, step) && Acts(step) != Some(p)
    ensures RowsFrom(s, Next(s, step, selfBot), p)
  {
    hide RowsInv;
    hide RowsFrom;
    if step.Redirect? {
      RedirectRowsFrom(s, step.copy, selfBot);
    } else if step.ReturnOk? || step.ReturnFail? {
      hide Next;
      ReturnKeepsRows(s, step, step.p, selfBot);
      FewerRows(s, Next(s, step, selfBot), p);
    } else {
      hide OtherSide;
      hide Kept;
      FewerRows(s, Next(s, step, selfBot), p);
    }
  }

  /** What the other worker's step deletes is on this worker's platform. */
  lemma {:induction false} DeletesOwn(s: State, step: Step, p: Platform, selfBot: bool)
    requires WorkerInv(s, Other(p)) && Enabled(s, step) && Acts(step) != Some(p)
    ensures forall k: Key | k.platform == Other(p) && k in Next(s, step, selfBot).byBridge :: k in s.byBridge
  {
    hide HitInv;
    hide OtherSide;
  }

  lemma {:induction false} StepKeepsWorkers(s: State, step: Step, selfBot: bool)
    requires Inv(s, selfBot) && Enabled(s, step)
    ensures WorkerInv(Next(s, step, selfBot), Tg) && WorkerInv(Next(s, step, selfBot), Bale)
  {
    hide KeyInv;
    hide RowsInv;
    hide WorkerInv;
    hide Placed;
    hide Next;
    hide Enabled;
    if Acts(step) == Some(Tg) {
      StepKeepsOwnWorker(s, step, Tg, selfBot);
    } else {
      StepKeepsOtherWorker(s, step, Tg, selfBot);
    }
    if Acts(step) == Some(Bale) {
      StepKeepsOwnWorker(s, step, Bale, selfBot);
    } else {
      StepKeepsOtherWorker(s, step, Bale, selfBot);
    }
  }

  // ------------------------------------------------ platforms

  lemma {:induction false} KeptOn(keys: seq<Key>, ignore: set<Key>, p: Platform)
    requires On(p, keys)
    ensures On(p, Kept(keys, ignore))
  {
    if keys != [] {
      KeptOn(keys[..|keys| - 1], ignore, p);
    }
  }

  lemma {:induction false} DeliverKeepsPlaced(s: State, i: nat, selfBot: bool)
    requires Placed(s) && Enabled(s, Deliver(i))
    ensures Placed(Next(s, Deliver(i), selfBot))
  {
    KeptOn(s.inflight[i].keys, s.ignore, s.inflight[i].p);
    hide Kept;
    hide On;
  }

  lemma {:induction false} StepKeepsPlaced(s: State, step: Step, selfBot: bool)
    requires Placed(s) && Enabled(s, step)
    ensures Placed(Next(s, step, selfBot))
  {
    hide Placed;
    hide Next;
    hide Enabled;
    if step.Deliver? {
      DeliverKeepsPlaced(s, step.i, selfBot);
    } else if step.UserDelete? || step.Effect? || step.OldGone? {
      ReportKeepsPlaced(s, step, selfBot);
    } else if step.Drop? || step.Take? {
      QueueKeepsPlaced(s, step, selfBot);
    } else if step.NextId? || step.Finish? || step.Abort? {
      WorkKeepsPlaced(s, step, selfBot);
    } else {
      QuietKeepsPlaced(s, step, selfBot);
    }
  }

  lemma {:induction false} ReportKeepsPlaced(s: State, step: Step, selfBot: bool)
    requires Placed(s) && Enabled(s, step) && (step.UserDelete? || step.Effect? || step.OldGone?)
    ensures Placed(Next(s, step, selfBot))
  {
    hide On;
    hide Placed;
    ReportedOn(s, step, selfBot);
    OneMorePlaced(s, Next(s, step, selfBot));
  }

  lemma {:induction false} WorkKeepsPlaced(s: State, step: Step, selfBot: bool)
    requires Placed(s) && Enabled(s, step) && (step.NextId? || step.Finish? || step.Abort?)
    ensures Placed(Next(s, step, selfBot))
  {
    hide OtherSide;
    hide Placed;
    FewerPlaced(s, Next(s, step, selfBot));
  }

  lemma {:induction false} QuietKeepsPlaced(s: State, step: Step, selfBot: bool)
    requires Placed(s) && Enabled(s, step)
    requires !step.Deliver? && !step.UserDelete? && !step.Effect? && !step.OldGone?
    requires !step.Drop? && !step.Take? && !step.NextId? && !step.Finish? && !step.Abort?
    ensures Placed(Next(s, step, selfBot))
  {
    hide Placed;
    hide OtherSide;
    hide Redirected;
    hide Without;
    SamePlaced(s, Next(s, step, selfBot));
  }

  lemma {:induction false} SamePlaced(s: State, t: State)
    requires Placed(s) && t.inflight == s.inflight && t.tgQueue == s.tgQueue && t.baleQueue == s.baleQueue
    requires t.tgWorker.Todo() == s.tgWorker.Todo() && t.baleWorker.Todo() == s.baleWorker.Todo()
    ensures Placed(t)
  {
  }

  lemma {:induction false} OneMorePlaced(s: State, t: State)
    requires Placed(s) && t.tgQueue == s.tgQueue && t.baleQueue == s.baleQueue
    requires t.inflight == s.inflight || (exists e :: t.inflight == s.inflight + [e] && On(e.p, e.keys))
    requires t.tgWorker.Todo() == s.tgWorker.Todo() && t.baleWorker.Todo() == s.baleWorker.Todo()
    ensures Placed(t)
  {
    hide On;
  }

  /** A reported deletion is on the platform it is reported on. */
  lemma {:induction false} ReportedOn(s: State, step: Step, selfBot: bool)
    requires Enabled(s, step) && (step.UserDelete? || step.Effect? || step.OldGone?)
    ensures var t := Next(s, step, selfBot);
            t.inflight == s.inflight || (exists e :: t.inflight == s.inflight + [e] && On(e.p, e.keys))
  {
    match step
    case UserDelete(p, keys) => assert On(p, keys);
    case Effect(p) => assert On(CallOf(s, p).value.hit.end.platform, [CallOf(s, p).value.hit.end]);
    case OldGone => assert On(s.tgWorker.hit.end.platform, [s.tgWorker.hit.end]);
  }

  lemma {:induction false} QueueKeepsPlaced(s: State, step: Step, selfBot: bool)
    requires Placed(s) && Enabled(s, step) && (step.Drop? || step.Take?)
    ensures Placed(Next(s, step, selfBot))
  {
    hide On;
  }

  /** Of what was to be done some is left. */
  lemma {:induction false} FewerPlaced(s: State, t: State)
    requires Placed(s) && t.inflight == s.inflight && t.tgQueue == s.tgQueue && t.baleQueue == s.baleQueue
    requires forall k | k in t.tgWorker.Todo() :: k in s.tgWorker.Todo()
    requires forall k | k in t.baleWorker.Todo() :: k in s.baleWorker.Todo()
    ensures Placed(t)
  {
    SomeOn(Tg, s.tgWorker.Todo(), t.tgWorker.Todo());
    SomeOn(Bale, s.baleWorker.Todo(), t.baleWorker.Todo());
    hide On;
  }

  lemma {:induction false} SomeOn(p: Platform, keys: seq<Key>, some: seq<Key>)
    requires On(p, keys) && forall k | k in some :: k in keys
    ensures On(p, some)
  {
    forall i | 0 <= i < |some|
      ensures some[i].platform == p
    {
      assert some[i] in some;
    }
  }

  /** Every step of every interleaving keeps the invariant. */
  lemma {:induction false} StepKeepsInv(s: State, step: Step, selfBot: bool)
    requires Inv(s, selfBot) && Enabled(s, step)
    ensures Inv(Next(s, step, selfBot), selfBot)
  {
    hide KeyInv;
    hide RowsInv;
    hide WorkerInv;
    hide Placed;
    hide Enabled;
    hide Next;
    forall k
      ensures KeyInv(Next(s, step, selfBot), k, selfBot)
    {
      StepKeepsKey(s, step, selfBot, k);
    }
    StepKeepsRows(s, step, selfBot);
    StepKeepsWorkers(s, step, selfBot);
    StepKeepsPlaced(s, step, selfBot);
  }

  // ------------------------------------------------ what is suppressed

  /**
   Before a deletion in Telegram its echo is always marked, before one in Bale only when the
   Bale side is a user account, which alone is told of deletions there.
   */
  lemma {:induction false} AskMarks(s: State, p: Platform, selfBot: bool)
    requires Enabled(s, Ask(p))
    ensures var end, t := s.WorkerOf(p).hits[0].end, Next(s, Ask(p), selfBot);
            && t.ignore == (if end.platform == Tg || selfBot then s.ignore + {end} else s.ignore)
            && t.called == s.called + {end} && CallOf(t, p) == Some(Call(s.WorkerOf(p).hits[0], false))
  {
  }

  // ------------------------------------------------ the order of deletions

  /** The deletions of an event that are not echoes, as one job in their order. */
  ghost predicate JobOf(e: Event, ignore: set<Key>, job: seq<Key>)
  {
    Subsequence(job, e.keys) && forall k | k in e.keys :: k in job <==> k !in ignore
  }

  lemma {:induction false} KeptIsJob(e: Event, ignore: set<Key>)
    ensures JobOf(e, ignore, Kept(e.keys, ignore))
  {
    hide Subsequence;
    KeptInOrder(e.keys, ignore);
    forall k | k in e.keys
      ensures k in Kept(e.keys, ignore) <==> k !in ignore
    {
      KeptCount(e.keys, ignore, k);
      CountIn(e.keys, k);
      CountIn(Kept(e.keys, ignore), k);
    }
  }

  /** An event puts what is not an echo behind all jobs of its platform, and touches no other queue. */
  lemma {:induction false} DeletionIsLast(s: State, i: nat, selfBot: bool, p: Platform)
    requires Enabled(s, Deliver(i))
    ensures var e, q, q' := s.inflight[i], s.QueueOf(p), Next(s, Deliver(i), selfBot).QueueOf(p);
            q' == q || (e.p == p && exists job :: JobOf(e, s.ignore, job) && q' == q + [job])
    ensures var e := s.inflight[i];
            (exists k :: k in e.keys && k !in s.ignore) ==>
              exists job :: JobOf(e, s.ignore, job) &&
                            Next(s, Deliver(i), selfBot).QueueOf(e.p) == s.QueueOf(e.p) + [job]
  {
    hide JobOf;
    hide Kept;
    var e := s.inflight[i];
    KeptIsJob(e, s.ignore);
    if k :| k in e.keys && k !in s.ignore {
      KeptCount(e.keys, s.ignore, k);
      CountIn(e.keys, k);
    }
  }

  /** Otherwise a worker takes the first job, which it works off from the front, or the queues stay as they are. */
  lemma {:induction false} QueueIsFifo(s: State, step: Step, p: Platform, selfBot: bool)
    requires Enabled(s, step) && !step.Deliver?
    ensures var q, t := s.QueueOf(p), Next(s, step, selfBot);
            && (step == Take(p) || step == Drop(p) ==> q != [] && t.QueueOf(p) == q[1..])
            && (step != Take(p) && step != Drop(p) ==> t.QueueOf(p) == q)
  {
    if step.Take? || step.Drop? {
      assert Next(s, step, selfBot).QueueOf(Other(step.p)) == s.QueueOf(Other(step.p));
    } else {
      hide Next;
      hide Enabled;
      QueuesStay(s, step, selfBot);
    }
  }

  lemma {:induction false} QueuesStay(s: State, step: Step, selfBot: bool)
    requires Enabled(s, step) && !step.Deliver? && !step.Take? && !step.Drop?
    ensures Next(s, step, selfBot).tgQueue == s.tgQueue && Next(s, step, selfBot).baleQueue == s.baleQueue
  {
    hide OtherSide;
    hide Redirected;
    hide Without;
    hide Reports;
  }

  lemma {:induction false} WorkedOffInOrder(s: State, p: Platform, selfBot: bool)
    ensures Enabled(s, Take(p)) ==> Next(s, Take(p), selfBot).WorkerOf(p) == Working(s.QueueOf(p)[0], [], None)
    ensures Enabled(s, NextId(p)) ==>
              var todo, t := s.WorkerOf(p).todo, Next(s, NextId(p), selfBot);
              t.WorkerOf(p).Todo() == todo[1..] && t.spent == s.spent + {todo[0]}
  {
    hide OtherSide;
  }

  lemma {:induction false} KeptInOrder(keys: seq<Key>, ignore: set<Key>)
    ensures Subsequence(Kept(keys, ignore), keys)
  {
    hide Subsequence;
    if keys == [] {
      NothingIsSubsequence(keys);
    } else {
      var init, last := keys[..|keys| - 1], keys[|keys| - 1];
      KeptInOrder(init, ignore);
      SubsequenceTakes(Kept(init, ignore), init, last);
      assert keys == init + [last];
    }
  }

  // ------------------------------------------------ runs

  ghost predicate IsRun(states: seq<State>, steps: seq<Step>, selfBot: bool)
  {
    && |states| == |steps| + 1 && states[0] == Start
    && forall i | 0 <= i < |steps| ::
        Enabled(states[i], steps[i]) && states[i + 1] == Next(states[i], steps[i], selfBot)
  }

  lemma {:induction false} InvOverRuns(states: seq<State>, steps: seq<Step>, selfBot: bool, n: nat)
    requires IsRun(states, steps, selfBot) && n <= |steps|
    ensures Inv(states[n], selfBot)
  {
    hide Inv;
    hide Enabled;
    hide Next;
    if n == 0 {
      InvAtStart(selfBot);
    } else {
      InvOverRuns(states, steps, selfBot, n - 1);
      StepKeepsInv(states[n - 1], steps[n - 1], selfBot);
    }
  }

  /** No deletion the bridge made is ever queued or looked up, in any interleaving. */
  lemma {:induction false} EchoesNeverBounce(states: seq<State>, steps: seq<Step>, selfBot: bool, n: nat, k: Key)
    requires IsRun(states, steps, selfBot) && n <= |steps| && k in states[n].byBridge
    ensures Accepted(states[n])[k] == 0 && k !in states[n].spent
  {
    InvOverRuns(states, steps, selfBot, n);
    assert KeyInv(states[n], k, selfBot);
    hide Accepted;
  }

  /**
   The echo sets are exact: a message is in them while the bridge's deletion of it is on its
   way back, and otherwise only while the deletion is pending or when it failed to happen (or
   is never reported).
   */
  lemma {:induction false} EchoSetsAreExact(states: seq<State>, steps: seq<Step>, selfBot: bool, n: nat, k: Key)
    requires IsRun(states, steps, selfBot) && n <= |steps|
    ensures var s := states[n];
            && (Echoes(s, k) == 1 ==> k in s.ignore)
            && (k in s.ignore ==> Echoes(s, k) == 1 || Asked(s, k) || Replacing(s, k) || k in s.leaked)
            && (k in s.ignore && !Asked(s, k) && !Replacing(s, k) && k !in s.leaked ==> k in s.byBridge)
  {
    InvOverRuns(states, steps, selfBot, n);
    assert KeyInv(states[n], k, selfBot);
    hide Echoes;
    hide Wanted;
  }

  /**
   The step leaves a mark behind: an exception ends a delete job before the deletion took
   effect, an old copy is given up although it could not be deleted, or a bot is not told
   that it was.
   */
  predicate Leaks(s: State, step: Step, selfBot: bool)
  {
    || (step.Abort? && CallOf(s, step.p).Some? && !CallOf(s, step.p).value.done)
    || (step.Redirect? && s.tgWorker.Editing? && s.tgWorker.phase == Deleting(false))
    || (step.OldGone? && s.tgWorker.Editing? && !Reports(s.tgWorker.hit.end.platform, selfBot))
  }

  lemma {:induction false} LeakedGrows(s: State, step: Step, selfBot: bool)
    requires Enabled(s, step) && !Leaks(s, step, selfBot)
    ensures Next(s, step, selfBot).leaked <= s.leaked
  {
    hide OtherSide;
    hide Redirected;
    hide Kept;
  }

  /** Without such steps nothing is ever left behind. */
  lemma {:induction false} NoLeaks(states: seq<State>, steps: seq<Step>, selfBot: bool, n: nat)
    requires IsRun(states, steps, selfBot) && n <= |steps|
    requires forall i | 0 <= i < n :: !Leaks(states[i], steps[i], selfBot)
    ensures states[n].leaked == {}
  {
    if n > 0 {
      hide Next;
      hide Leaks;
      hide Enabled;
      NoLeaks(states, steps, selfBot, n - 1);
      LeakedGrows(states[n - 1], steps[n - 1], selfBot);
    }
  }

  /** Nothing reported is undelivered and no deletion is pending. */
  predicate AtRest(s: State)
  {
    s.inflight == [] && CallOf(s, Tg) == None && CallOf(s, Bale) == None && !s.tgWorker.Editing?
  }

  /** At rest the echo sets hold only what such steps left; without those they are empty. */
  lemma {:induction false} EchoSetsEmptyAtRest(states: seq<State>, steps: seq<Step>, selfBot: bool, n: nat)
    requires IsRun(states, steps, selfBot) && n <= |steps| && AtRest(states[n])
    ensures states[n].ignore <= states[n].leaked
    ensures (forall i | 0 <= i < n :: !Leaks(states[i], steps[i], selfBot)) ==> states[n].ignore == {}
  {
    var s := states[n];
    forall k | k in s.ignore
      ensures k in s.leaked
    {
      EchoSetsAreExact(states, steps, selfBot, n, k);
    }
    if forall i | 0 <= i < n :: !Leaks(states[i], steps[i], selfBot) {
      NoLeaks(states, steps, selfBot, n);
    }
  }

  /**
   A user's deletion is dropped on delivery only when the bridge is about to delete that
   very message, or a mark was left; all others are queued.
   */
  lemma {:induction false} UserDeletionsQueued(
      states: seq<State>, steps: seq<Step>, selfBot: bool, n: nat, i: nat, k: Key)
    requires IsRun(states, steps, selfBot) && n <= |steps|
    requires i < |states[n].inflight| && !states[n].inflight[i].byBridge && k in states[n].inflight[i].keys
    ensures k in Kept(states[n].inflight[i].keys, states[n].ignore) <==> k !in states[n].ignore
    ensures k in states[n].ignore ==> Asked(states[n], k) || Replacing(states[n], k) || k in states[n].leaked
  {
    var s := states[n];
    InvOverRuns(states, steps, selfBot, n);
    assert KeyInv(s, k, selfBot);
    KeptCount(s.inflight[i].keys, s.ignore, k);
    CountIn(s.inflight[i].keys, k);
    CountIn(Kept(s.inflight[i].keys, s.ignore), k);
    ReportedRemove(s.inflight, i, false, k);
    hide Reported;
    hide Accepted;
  }
}
