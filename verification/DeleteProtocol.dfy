/**
 Two-way deletion as a state machine over its atomic steps (bridge/transfer/sync_delete.py,
 the delete entry points of queueing.py, and the echo sets of loopguard.py). The platforms
 report every deletion once, whoever made it; a deletion by the bridge succeeds exactly
 when it takes effect. Users, both workers and event deliveries interleave freely.

 The worker of Telegram events also deletes when it replaces a copy that could not be edited
 (sync_edit.py): it suppresses the echo, sends the new copy, deletes the old one and redirects
 the row. Edits and deletions of one platform share a worker, so they never overlap.
 */
module DeleteProtocol {
  import opened Sequences
  import opened Messages
  import opened MessageMap
  import MirrorProtocol

  /** A reported deletion of messages of one platform; nobody but the proof looks at who made it. */
  datatype Event = Event(p: Platform, keys: seq<Key>, byBridge: bool)

  /** A deletion the bridge has asked for; `done` once it has taken effect. */
  datatype Call = Call(hit: Hit, done: bool)

  /** How far an edit has come: looked up, its echo suppressed, the old copy's deletion asked for (and done). */
  datatype Phase = Looked | Suppressed | Deleting(done: bool)

  datatype Worker =
    | Idle
    | Working(todo: seq<Key>, hits: seq<Hit>, call: Option<Call>)
    | Editing(hit: Hit, phase: Phase)
  {
    function Todo(): seq<Key>
    {
      if Working? then todo else []
    }

    /** The old copy is to be deleted, and has not been. */
    predicate Replaces(k: Key)
    {
      Editing? && (phase == Suppressed || phase == Deleting(false)) && hit.end == k
    }

    /** The message of a call that has not taken effect. */
    predicate Asks(k: Key)
    {
      Working? && call.Some? && !call.value.done && call.value.hit.end == k
    }
  }

  datatype State = State(
    known: set<Key>,        // every message there has ever been
    live: set<Key>,
    rows: seq<Row>,
    used: set<Key>,         // ends of rows, past and present
    ids: set<nat>,          // their ids, which are never given twice
    inflight: seq<Event>,
    ignore: set<Key>,       // both echo sets; keys carry their platform
    tgQueue: seq<seq<Key>>,
    baleQueue: seq<seq<Key>>,
    tgWorker: Worker,       // serves deletions in Telegram
    baleWorker: Worker,
    called: set<Key>,       // history: messages the bridge asked to delete
    byBridge: set<Key>,     // history: messages the bridge did delete
    spent: set<Key>,        // history: deletions a worker has looked up
    leaked: set<Key>)       // history: marks whose deletion failed or is never reported
  {
    function QueueOf(p: Platform): seq<seq<Key>>
    {
      if p == Tg then tgQueue else baleQueue
    }

    function WithQueue(p: Platform, q: seq<seq<Key>>): State
    {
      if p == Tg then this.(tgQueue := q) else this.(baleQueue := q)
    }

    function WorkerOf(p: Platform): Worker
    {
      if p == Tg then tgWorker else baleWorker
    }

    function WithWorker(p: Platform, w: Worker): State
    {
      if p == Tg then this.(tgWorker := w) else this.(baleWorker := w)
    }
  }

  /** `selfBot`: the Bale side is a user account, which is told of deletions; a bot is not. */
  datatype Step =
    | Create(k: Key)
    | NewRow(row: Row)
    | UserDelete(p: Platform, keys: seq<Key>)
    | Deliver(i: nat)
    | Drop(p: Platform)             // paused
    | Take(p: Platform)
    | NextId(p: Platform)
    | Pass(p: Platform)             // a row this direction does not serve
    | Ask(p: Platform)              // suppress and call
    | Effect(p: Platform)
    | ReturnOk(p: Platform)
    | ReturnFail(p: Platform)
    | Abort(p: Platform)            // an exception that is not caught
    | Finish(p: Platform)
    | TakeEdit(k: Key)              // the Telegram message `k` was edited: look up its copy
    | EndEdit                       // the copy was edited, or something raised
    | Suppress                      // it was not: the echo of its deletion is to be ignored
    | Withdraw                      // no new copy could be sent
    | AskOld                        // the new copy exists; the old one is to go
    | OldGone
    | Redirect(copy: Key)           // the row now points to the new copy

  /** Whether deletions on platform `p` are reported, and therefore suppressed. */
  predicate Reports(p: Platform, selfBot: bool)
  {
    p == Tg || selfBot
  }

  predicate Distinct(keys: seq<Key>)
  {
    forall i, j | 0 <= i < j < |keys| :: keys[i] != keys[j]
  }

  predicate Ends(row: Row, k: Key)
  {
    row.src == k || row.dst == k
  }

  predicate Enabled(s: State, step: Step)
  {
    match step
    case Create(k) => k !in s.known
    case NewRow(row) =>
      && row.src in s.known && row.dst in s.known && row.src !in s.used && row.dst !in s.used && row.id !in s.ids
      && row.src.platform != row.dst.platform
    case UserDelete(p, keys) =>
      Distinct(keys) && forall i | 0 <= i < |keys| :: keys[i] in s.live && keys[i].platform == p
    case Deliver(i) => i < |s.inflight|
    case Drop(p) => s.WorkerOf(p).Idle? && s.QueueOf(p) != []
    case Take(p) => s.WorkerOf(p).Idle? && s.QueueOf(p) != []
    case NextId(p) =>
      var w := s.WorkerOf(p);
      w.Working? && w.hits == [] && w.call == None && w.todo != []
    case Pass(p) => s.WorkerOf(p).Working? && s.WorkerOf(p).call == None && s.WorkerOf(p).hits != []
    case Ask(p) =>
      var w := s.WorkerOf(p);
      w.Working? && w.call == None && w.hits != [] && w.hits[0].end.platform == Other(p)
    case Effect(p) => CallOf(s, p).Some? && !CallOf(s, p).value.done && CallOf(s, p).value.hit.end in s.live
    case ReturnOk(p) => CallOf(s, p).Some? && CallOf(s, p).value.done
    case ReturnFail(p) => CallOf(s, p).Some? && !CallOf(s, p).value.done
    case Abort(p) => p == Tg && CallOf(s, p).Some?
    case Finish(p) =>
      var w := s.WorkerOf(p);
      w.Working? && w.hits == [] && w.call == None && w.todo == []
    case TakeEdit(k) => s.tgWorker.Idle? && k.platform == Tg && k !in s.spent && CopyOf(s.rows, k).Some?
    case EndEdit => s.tgWorker.Editing? && s.tgWorker.phase == Looked
    case Suppress => s.tgWorker.Editing? && s.tgWorker.phase == Looked
    case Withdraw => s.tgWorker.Editing? && s.tgWorker.phase == Suppressed
    case AskOld => s.tgWorker.Editing? && s.tgWorker.phase == Suppressed
    case OldGone => s.tgWorker.Editing? && s.tgWorker.phase == Deleting(false) && s.tgWorker.hit.end in s.live
    case Redirect(copy) =>
      && s.tgWorker.Editing? && s.tgWorker.phase.Deleting?
      && copy in s.known && copy !in s.used && copy.platform == Bale
  }

  /** The copy in Bale an edit in Telegram leads to, if any. */
  function CopyOf(rows: seq<Row>, k: Key): Option<Hit>
  {
    var hits := OtherSide(rows, k, None);
    if hits != [] && hits[0].end.platform == Bale then Some(hits[0]) else None
  }

  function CallOf(s: State, p: Platform): Option<Call>
  {
    if s.WorkerOf(p).Working? then s.WorkerOf(p).call else None
  }

  /** `ids` of the entry points: the deletions that are not echoes. */
  function Kept(keys: seq<Key>, ignore: set<Key>): seq<Key>
  {
    if keys == [] then []
    else
      var init, last := Kept(keys[..|keys| - 1], ignore), keys[|keys| - 1];
      if last in ignore then init else init + [last]
  }

  function Delivered(s: State, e: Event): State
  {
    var kept := Kept(e.keys, s.ignore);
    var t := s.(ignore := s.ignore - (set k | k in e.keys), leaked := s.leaked - (set k | k in e.keys));
    if kept == [] then t else t.WithQueue(e.p, t.QueueOf(e.p) + [kept])
  }

  function Next(s: State, step: Step, selfBot: bool): State
    requires Enabled(s, step)
  {
    match step
    case Create(k) => s.(known := s.known + {k}, live := s.live + {k})
    case NewRow(row) => s.(rows := s.rows + [row], used := s.used + {row.src, row.dst}, ids := s.ids + {row.id})
    case UserDelete(p, keys) =>
      var t := s.(live := s.live - (set k | k in keys));
      if Reports(p, selfBot) then t.(inflight := t.inflight + [Event(p, keys, false)]) else t
    case Deliver(i) => Delivered(s.(inflight := RemoveAt(s.inflight, i)), s.inflight[i])
    case Drop(p) => s.WithQueue(p, s.QueueOf(p)[1..])
    case Take(p) => s.WithQueue(p, s.QueueOf(p)[1..]).WithWorker(p, Working(s.QueueOf(p)[0], [], None))
    case NextId(p) =>
      var w := s.WorkerOf(p);
      s.(spent := s.spent + {w.todo[0]}).WithWorker(p, Working(w.todo[1..], OtherSide(s.rows, w.todo[0], None), None))
    case Pass(p) => s.WithWorker(p, s.WorkerOf(p).(hits := s.WorkerOf(p).hits[1..]))
    case Ask(p) =>
      var w := s.WorkerOf(p);
      var hit := w.hits[0];
      s.(ignore := if Reports(hit.end.platform, selfBot) then s.ignore + {hit.end} else s.ignore,
         called := s.called + {hit.end})
       .WithWorker(p, w.(hits := w.hits[1..], call := Some(Call(hit, false))))
    case Effect(p) => TakeEffect(s, p, selfBot)
    case ReturnOk(p) =>
      s.(rows := Without(s.rows, CallOf(s, p).value.hit.row)).WithWorker(p, s.WorkerOf(p).(call := None))
    case ReturnFail(p) =>
      var hit := CallOf(s, p).value.hit;
      s.(rows := Without(s.rows, hit.row), ignore := s.ignore - {hit.end}).WithWorker(p, s.WorkerOf(p).(call := None))
    case Abort(p) =>
      var call := CallOf(s, p).value;
      s.(leaked := if call.done then s.leaked else s.leaked + {call.hit.end}).WithWorker(p, Idle)
    case Finish(p) => s.WithWorker(p, Idle)
    case TakeEdit(k) => s.(tgWorker := Editing(CopyOf(s.rows, k).value, Looked))
    case EndEdit => s.(tgWorker := Idle)
    case Suppress => s.(ignore := s.ignore + {s.tgWorker.hit.end}, tgWorker := s.tgWorker.(phase := Suppressed))
    case Withdraw => s.(ignore := s.ignore - {s.tgWorker.hit.end}, tgWorker := Idle)
    case AskOld => s.(called := s.called + {s.tgWorker.hit.end}, tgWorker := s.tgWorker.(phase := Deleting(false)))
    case OldGone => OldDeleted(s, selfBot)
    case Redirect(copy) =>
      var w := s.tgWorker;
      s.(rows := Redirected(s.rows, w.hit.row, copy), used := s.used + {copy},
         leaked := if w.phase.done then s.leaked else s.leaked + {w.hit.end},
         tgWorker := Idle)
  }

  /** The old copy is deleted. A bot is not told of it, so the mark stays. */
  function OldDeleted(s: State, selfBot: bool): State
    requires Enabled(s, OldGone)
  {
    var end := s.tgWorker.hit.end;
    var t := s.(live := s.live - {end}, byBridge := s.byBridge + {end},
                tgWorker := s.tgWorker.(phase := Deleting(true)));
    if Reports(end.platform, selfBot) then t.(inflight := t.inflight + [Event(end.platform, [end], true)])
    else t.(leaked := t.leaked + {end})
  }

  function TakeEffect(s: State, p: Platform, selfBot: bool): State
    requires Enabled(s, Effect(p))
  {
    var hit := CallOf(s, p).value.hit;
    var t := s.(live := s.live - {hit.end}, byBridge := s.byBridge + {hit.end})
              .WithWorker(p, s.WorkerOf(p).(call := Some(Call(hit, true))));
    if Reports(hit.end.platform, selfBot)
    then t.(inflight := t.inflight + [Event(hit.end.platform, [hit.end], true)])
    else t
  }

  // ------------------------------------------------ what is on its way

  /** The reported deletions by users (`false`) or by the bridge (`true`). */
  function Reported(events: seq<Event>, byBridge: bool): multiset<Key>
  {
    if events == [] then multiset{}
    else
      var last := events[|events| - 1];
      Reported(events[..|events| - 1], byBridge) +
          (if last.byBridge == byBridge then multiset(last.keys) else multiset{})
  }

  /** The deletions accepted for processing and not looked up yet. */
  function Accepted(s: State): multiset<Key>
  {
    (MirrorProtocol.JobKeys(s.tgQueue) + MirrorProtocol.JobKeys(s.baleQueue))
    + (multiset(s.tgWorker.Todo()) + multiset(s.baleWorker.Todo()))
  }

  lemma {:induction false} ReportedAppend(events: seq<Event>, e: Event, byBridge: bool, k: Key)
    ensures Reported(events + [e], byBridge)[k] ==
            Reported(events, byBridge)[k] + (if e.byBridge == byBridge then multiset(e.keys)[k] else 0)
  {
    assert (events + [e])[..|events|] == events;
  }

  lemma {:induction false} ReportedRemove(events: seq<Event>, i: nat, byBridge: bool, k: Key)
    requires i < |events|
    ensures Reported(events, byBridge)[k] ==
            Reported(RemoveAt(events, i), byBridge)[k] +
                (if events[i].byBridge == byBridge then multiset(events[i].keys)[k] else 0)
    decreases |events|
  {
    var n := |events|;
    var init, last := events[..n - 1], events[n - 1];
    if i == n - 1 {
      RemoveLast(events);
    } else {
      hide Reported;
      RemoveBeforeLast(events, i);
      hide RemoveAt;
      ReportedAppend(init, last, byBridge, k);
      ReportedRemove(init, i, byBridge, k);
      ReportedAppend(RemoveAt(init, i), last, byBridge, k);
    }
  }

  lemma {:induction false} KeptCount(keys: seq<Key>, ignore: set<Key>, k: Key)
    ensures multiset(Kept(keys, ignore))[k] == if k in ignore then 0 else multiset(keys)[k]
  {
    if keys != [] {
      KeptCount(keys[..|keys| - 1], ignore, k);
      assert keys == keys[..|keys| - 1] + [keys[|keys| - 1]];
    }
  }

  lemma {:induction false} AcceptedDelta(s: State, p: Platform, q: seq<seq<Key>>, w: Worker, k: Key)
    ensures Accepted(s.WithQueue(p, q).WithWorker(p, w))[k] + MirrorProtocol.JobKeys(s.QueueOf(p))[k] +
            multiset(s.WorkerOf(p).Todo())[k]
         == Accepted(s)[k] + MirrorProtocol.JobKeys(q)[k] + multiset(w.Todo())[k]
  {
    hide MirrorProtocol.JobKeys;
  }

  lemma {:induction false} SameAccepted(s: State, t: State)
    requires s.tgQueue == t.tgQueue && s.baleQueue == t.baleQueue
    requires s.tgWorker.Todo() == t.tgWorker.Todo() && s.baleWorker.Todo() == t.baleWorker.Todo()
    ensures Accepted(s) == Accepted(t)
  {
  }

  lemma {:induction false} HeadCount(keys: seq<Key>, k: Key)
    requires keys != []
    ensures multiset(keys)[k] == multiset(keys[1..])[k] + (if k == keys[0] then 1 else 0)
  {
    assert keys == [keys[0]] + keys[1..];
  }

  lemma {:induction false} CountIn(keys: seq<Key>, k: Key)
    ensures k in keys <==> multiset(keys)[k] >= 1
  {
  }

  lemma {:induction false} DistinctCount(keys: seq<Key>, k: Key)
    requires Distinct(keys)
    ensures multiset(keys)[k] == if k in keys then 1 else 0
  {
    if keys != [] {
      HeadCount(keys, k);
      DistinctCount(keys[1..], k);
      assert keys == [keys[0]] + keys[1..];
    }
  }
}
