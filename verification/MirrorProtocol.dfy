/**
 The mirroring protocol as a state machine over its atomic steps: entry points and
 workers (bridge/transfer/queueing.py), the two mirrors and their `pair_send`
 (mirror_t2b.py, mirror_b2t.py), and the one-shot ledger. A step is what runs between two
 suspension points of the event loop; steps of the two directions interleave freely.

 The platforms give every message a fresh id and deliver its "new" event exactly once. A
 send creates the message first; the ledger is written only after all sends of a
 `pair_send`, so the echo may arrive, and be queued, before that. Only the messages the
 sends have told of are recorded: a group sent half-way, say, leaves some without a token.
 A copy that could not be edited is sent again the same way (sync_edit.py), and of its
 messages the first is recorded.
 */
module MirrorProtocol {
  import opened Sequences
  import opened Messages
  import Albums
  import Sorting

  // ------------------------------------------------ the bridge's own state

  datatype Inbox = Inbox(queue: seq<seq<Key>>, albums: seq<Albums.Album<nat, Key>>)

  datatype Bridge = Bridge(tokens: multiset<Key>, tg: Inbox, bale: Inbox, paused: bool)
  {
    function At(p: Platform): Inbox
    {
      if p == Tg then tg else bale
    }

    function With(p: Platform, inbox: Inbox): Bridge
    {
      if p == Tg then this.(tg := inbox) else this.(bale := inbox)
    }
  }

  predicate ById(a: Key, b: Key)
  {
    a.id <= b.id
  }

  function Received(inbox: Inbox, k: Key, gid: Option<nat>): Inbox
  {
    match gid
    case None => inbox.(queue := inbox.queue + [[k]])
    case Some(g) => inbox.(albums := Albums.Fed(inbox.albums, g, k))
  }

  /** `on_tg_new`, `queue_bale_msg`: an own message is dropped and its token used up. */
  function OnNew(b: Bridge, k: Key, gid: Option<nat>): Bridge
  {
    if k in b.tokens then b.(tokens := b.tokens - multiset{k})
    else b.With(k.platform, Received(b.At(k.platform), k, gid))
  }

  /** `on_tg_edit`, as far as the ledger is concerned: it uses up a token too. */
  function OnEdit(b: Bridge, k: Key): Bridge
  {
    if k in b.tokens then b.(tokens := b.tokens - multiset{k}) else b
  }

  /** The album timer: the sorted batch is queued as one job. */
  function Flushed(inbox: Inbox, gid: nat): Inbox
  {
    var (items, rest) := Albums.Popped(inbox.albums, gid);
    Inbox(if items == [] then inbox.queue else inbox.queue + [Sorting.StableSort(ById, items)], rest)
  }

  function OnTimer(b: Bridge, p: Platform, gid: nat): Bridge
  {
    b.With(p, Flushed(b.At(p), gid))
  }

  /** The mirrors' first loop: own messages are dropped, each using up a token. */
  function Sift(msgs: seq<Key>, tokens: multiset<Key>): (seq<Key>, multiset<Key>)
  {
    if msgs == [] then ([], tokens)
    else
      var (out, left) := Sift(msgs[..|msgs| - 1], tokens);
      var k := msgs[|msgs| - 1];
      if k in left then (out, left - multiset{k}) else (out + [k], left)
  }

  /** The messages whose fingerprint was not recognised (second layer, Bale to Telegram only). */
  function Unrecognised(msgs: seq<Key>, recognised: set<Key>): seq<Key>
  {
    if msgs == [] then []
    else
      var init := Unrecognised(msgs[..|msgs| - 1], recognised);
      if msgs[|msgs| - 1] in recognised then init else init + [msgs[|msgs| - 1]]
  }

  // ------------------------------------------------ the whole system

  /** One `pair_send` or replacement: its destination chat and how many messages it still creates. */
  datatype Leg = Leg(dst: string, remaining: nat)

  /** A worker inside a mirror: the pairs still to serve, and the messages the current one has created. */
  datatype Worker = Idle | Busy(legs: seq<Leg>, made: seq<Key>)
  {
    function Made(): seq<Key>
    {
      if Idle? then [] else made
    }
  }

  datatype State = State(
    next: nat,              // the next fresh message id
    inflight: seq<Key>,     // "new" events the platforms have not delivered yet
    bridgeMade: set<Key>,   // messages the bridge created; nobody but the proof looks at this
    b: Bridge,
    tgWorker: Worker,       // serves the queue of Telegram events
    baleWorker: Worker,
    recorded: set<Key>,     // history: messages marked in the ledger
    lost: set<Key>,       // history: tokens an edit event used up or the clean-up removed
    mirrored: set<Key>,     // history: messages handed to a `pair_send`
    tgTaken: seq<seq<Key>>,      // history: the jobs the workers have taken, in order
    baleTaken: seq<seq<Key>>)
  {
    function WorkerOf(p: Platform): Worker
    {
      if p == Tg then tgWorker else baleWorker
    }

    function WithWorker(p: Platform, w: Worker): State
    {
      if p == Tg then this.(tgWorker := w) else this.(baleWorker := w)
    }

    function TakenOf(p: Platform): seq<seq<Key>>
    {
      if p == Tg then tgTaken else baleTaken
    }

    function WithTaken(p: Platform, job: seq<Key>): State
    {
      if p == Tg then this.(tgTaken := tgTaken + [job]) else this.(baleTaken := baleTaken + [job])
    }
  }

  datatype Step =
    | Post(p: Platform, chat: string)                                   // a user writes
    | Edit(k: Key)                                                      // a Telegram message is edited
    | Prune(k: Key)                                                     // an old token is cleaned up
    | SetPaused(on: bool)
    | Deliver(i: nat, album: Option<nat>)                               // a "new" event arrives
    | Timer(p: Platform, gid: nat)
    | Take(p: Platform, recognised: set<Key>, legs: seq<Leg>)           // a worker starts a job of new messages
    | Replace(p: Platform, leg: Leg)                                    // or sends again what it could not edit
    | Send(p: Platform)                                                 // one message is created
    | Record(p: Platform, kept: multiset<Key>)                          // what the sends told of is recorded
    | Fail(p: Platform)                                                 // the sends have raised

  const Start :=
    State(0, [], {}, Bridge(multiset{}, Inbox([], []), Inbox([], []), false), Idle, Idle, {}, {}, {}, [], [])

  /** What a job leaves to be mirrored. */
  function Survivors(s: State, p: Platform, recognised: set<Key>): seq<Key>
    requires s.b.At(p).queue != []
  {
    Unrecognised(Sift(s.b.At(p).queue[0], s.b.tokens).0, recognised)
  }

  function Copies(legs: seq<Leg>): nat
  {
    if legs == [] then 0 else Copies(legs[..|legs| - 1]) + legs[|legs| - 1].remaining
  }

  /** At most `pairs` pairs share a chat, and mirroring one message creates at most `copies` messages. */
  datatype Limits = Limits(pairs: nat, copies: nat)

  predicate Enabled(s: State, step: Step, limits: Limits)
  {
    match step
    case Post(_, _) => true
    case Edit(k) => k.platform == Tg && k.id < s.next && k !in s.inflight
    case Prune(k) => k in s.b.tokens
    case SetPaused(_) => true
    case Deliver(i, _) => i < |s.inflight|
    case Timer(p, gid) => Albums.Find(s.b.At(p).albums, gid) < |s.b.At(p).albums|
    case Take(p, recognised, legs) =>
      && s.WorkerOf(p).Idle? && s.b.At(p).queue != []
      && (p == Tg ==> recognised == {})
      && (legs != [] ==> !s.b.paused && Survivors(s, p, recognised) != [])
      && |legs| <= limits.pairs && Copies(legs) <= limits.copies * |Survivors(s, p, recognised)|
    case Replace(p, leg) => s.WorkerOf(p).Idle? && !s.b.paused && leg.remaining <= limits.copies
    case Send(p) => s.WorkerOf(p).Busy? && s.WorkerOf(p).legs != [] && s.WorkerOf(p).legs[0].remaining > 0
    case Record(p, kept) =>
      && s.WorkerOf(p).Busy? && s.WorkerOf(p).legs != [] && s.WorkerOf(p).legs[0].remaining == 0
      && kept <= multiset(s.WorkerOf(p).made)
    case Fail(p) => s.WorkerOf(p).Busy? && s.WorkerOf(p).legs != []
  }

  function Working(legs: seq<Leg>): Worker
  {
    if legs == [] then Idle else Busy(legs, [])
  }

  function Next(s: State, step: Step, limits: Limits): State
    requires Enabled(s, step, limits)
  {
    match step
    case Post(p, chat) => s.(next := s.next + 1, inflight := s.inflight + [Key(p, chat, s.next)])
    case Edit(k) => s.(b := OnEdit(s.b, k), lost := if k in s.b.tokens then s.lost + {k} else s.lost)
    case Prune(k) => s.(b := s.b.(tokens := s.b.tokens - multiset{k}), lost := s.lost + {k})
    case SetPaused(on) => s.(b := s.b.(paused := on))
    case Deliver(i, gid) => s.(inflight := RemoveAt(s.inflight, i), b := OnNew(s.b, s.inflight[i], gid))
    case Timer(p, gid) => s.(b := OnTimer(s.b, p, gid))
    case Take(p, recognised, legs) => TakeJob(s, p, recognised, legs)
    case Replace(p, leg) => s.WithWorker(p, Busy([leg], []))
    case Send(p) =>
      var w := s.WorkerOf(p);
      var k := Key(Other(p), w.legs[0].dst, s.next);
      var legs := w.legs[0 := w.legs[0].(remaining := w.legs[0].remaining - 1)];
      s.(next := s.next + 1, inflight := s.inflight + [k], bridgeMade := s.bridgeMade + {k})
       .WithWorker(p, Busy(legs, w.made + [k]))
    case Record(p, kept) =>
      var w := s.WorkerOf(p);
      s.(b := s.b.(tokens := s.b.tokens + kept), recorded := s.recorded + (set k | k in kept))
       .WithWorker(p, Working(w.legs[1..]))
    case Fail(p) => s.WithWorker(p, Working(s.WorkerOf(p).legs[1..]))
  }

  /** The bridge's own state after a worker has taken a job; a paused bridge throws it away unread. */
  function Taken(b: Bridge, p: Platform): Bridge
    requires b.At(p).queue != []
  {
    var inbox := b.At(p);
    var rest := inbox.(queue := inbox.queue[1..]);
    if b.paused then b.With(p, rest)
    else b.(tokens := Sift(inbox.queue[0], b.tokens).1).With(p, rest)
  }

  /** The survivors of a job that was not thrown away are mirrored to their pairs, if they have any. */
  function TakeJob(s: State, p: Platform, recognised: set<Key>, legs: seq<Leg>): State
    requires s.b.At(p).queue != []
  {
    var t := s.(b := Taken(s.b, p)).WithTaken(p, s.b.At(p).queue[0]);
    if s.b.paused then t
    else
      t.(mirrored := s.mirrored + HandedOn(Survivors(s, p, recognised), legs)).WithWorker(p, Working(legs))
  }

  /** The messages that reach a `pair_send`: all of them if any pair serves their chat, otherwise none. */
  function HandedOn(out: seq<Key>, legs: seq<Leg>): set<Key>
  {
    if legs == [] then {} else set k | k in out
  }

  // ------------------------------------------------ what is pending

  function JobKeys(jobs: seq<seq<Key>>): multiset<Key>
  {
    if jobs == [] then multiset{} else JobKeys(jobs[..|jobs| - 1]) + multiset(jobs[|jobs| - 1])
  }

  function AlbumKeys(albums: seq<Albums.Album<nat, Key>>): multiset<Key>
  {
    if albums == [] then multiset{}
    else AlbumKeys(albums[..|albums| - 1]) + multiset(albums[|albums| - 1].items)
  }

  function InboxKeys(inbox: Inbox): multiset<Key>
  {
    JobKeys(inbox.queue) + AlbumKeys(inbox.albums)
  }

  /** Messages whose "new" event has not been fully processed: in flight, buffered or queued. */
  function Pending(s: State): multiset<Key>
  {
    multiset(s.inflight) + (InboxKeys(s.b.tg) + InboxKeys(s.b.bale))
  }

  /** Messages created by a `pair_send` that has not returned yet. */
  function Unrecorded(s: State): multiset<Key>
  {
    multiset(s.tgWorker.Made()) + multiset(s.baleWorker.Made())
  }

  lemma {:induction false} JobKeysAppend(jobs: seq<seq<Key>>, job: seq<Key>)
    ensures JobKeys(jobs + [job]) == JobKeys(jobs) + multiset(job)
  {
    assert (jobs + [job])[..|jobs|] == jobs;
  }

  lemma {:induction false} JobKeysHead(jobs: seq<seq<Key>>)
    requires jobs != []
    ensures JobKeys(jobs) == multiset(jobs[0]) + JobKeys(jobs[1..])
  {
    var n := |jobs|;
    assert JobKeys([]) == multiset{};
    hide JobKeys;
    if n == 1 {
      assert jobs == [] + [jobs[0]] && jobs[1..] == [];
      JobKeysAppend([], jobs[0]);
    } else {
      var middle, last := jobs[1..n - 1], jobs[n - 1];
      JobKeysHead(jobs[..n - 1]);
      assert jobs[..n - 1][1..] == middle && jobs[1..] == middle + [last] && jobs == jobs[..n - 1] + [last];
      JobKeysAppend(jobs[..n - 1], last);
      JobKeysAppend(middle, last);
      SumsAssociate(multiset(jobs[0]), JobKeys(middle), multiset(last));
    }
  }

  lemma {:induction false} AlbumKeysAppend(albums: seq<Albums.Album<nat, Key>>, a: Albums.Album<nat, Key>)
    ensures AlbumKeys(albums + [a]) == AlbumKeys(albums) + multiset(a.items)
  {
    assert (albums + [a])[..|albums|] == albums;
  }

  lemma {:induction false} AlbumKeysSplit(albums: seq<Albums.Album<nat, Key>>, i: nat)
    requires i < |albums|
    ensures AlbumKeys(albums) == AlbumKeys(RemoveAt(albums, i)) + multiset(albums[i].items)
    decreases |albums|
  {
    var n := |albums| - 1;
    var init, last := albums[..n], albums[n];
    if i == n {
      RemoveLast(albums);
    } else {
      hide AlbumKeys;
      RemoveBeforeLast(albums, i);
      hide RemoveAt;
      AlbumKeysAppend(init, last);
      AlbumKeysSplit(init, i);
      AlbumKeysAppend(RemoveAt(init, i), last);
      SumsSwap(AlbumKeys(RemoveAt(init, i)), multiset(albums[i].items), multiset(last.items));
    }
  }

  lemma {:induction false} FedKeys(albums: seq<Albums.Album<nat, Key>>, gid: nat, k: Key)
    ensures AlbumKeys(Albums.Fed(albums, gid, k)) == AlbumKeys(albums) + multiset{k}
  {
    var i := Albums.Find(albums, gid);
    if i == |albums| {
      AlbumKeysAppend(albums, Albums.Album(gid, [k]));
    } else {
      var albums' := Albums.Fed(albums, gid, k);
      AlbumKeysSplit(albums, i);
      AlbumKeysSplit(albums', i);
      assert RemoveAt(albums', i) == RemoveAt(albums, i);
      assert multiset(albums[i].items + [k]) == multiset(albums[i].items) + multiset{k};
    }
  }

  lemma {:induction false} ReceivedKeys(inbox: Inbox, k: Key, gid: Option<nat>)
    ensures InboxKeys(Received(inbox, k, gid)) == InboxKeys(inbox) + multiset{k}
  {
    match gid
    case None => JobKeysAppend(inbox.queue, [k]);
    case Some(g) => FedKeys(inbox.albums, g, k);
  }

  lemma {:induction false} ByIdIsTotalPreorder()
    ensures Sorting.TotalPreorder(ById)
  {
  }

  lemma {:induction false} PoppedKeys(albums: seq<Albums.Album<nat, Key>>, gid: nat)
    ensures AlbumKeys(albums) == AlbumKeys(Albums.Popped(albums, gid).1) + multiset(Albums.Popped(albums, gid).0)
  {
    var i := Albums.Find(albums, gid);
    if i < |albums| {
      AlbumKeysSplit(albums, i);
    }
  }

  lemma {:induction false} FlushedKeys(inbox: Inbox, gid: nat)
    ensures InboxKeys(Flushed(inbox, gid)) == InboxKeys(inbox)
  {
    hide Albums.Popped;
    var items := Albums.Popped(inbox.albums, gid).0;
    PoppedKeys(inbox.albums, gid);
    ByIdIsTotalPreorder();
    Sorting.StableSortCorrect(ById, items);
    hide Sorting.Sorted;
    JobKeysAppend(inbox.queue, Sorting.StableSort(ById, items));
  }

  // ------------------------------------------------ the first loop of the mirrors

  predicate NoRepeats(msgs: seq<Key>)
  {
    forall i, j | 0 <= i < j < |msgs| :: msgs[i] != msgs[j]
  }

  lemma {:induction false} NoRepeatsInit(msgs: seq<Key>)
    requires NoRepeats(msgs) && msgs != []
    ensures NoRepeats(msgs[..|msgs| - 1]) && msgs[|msgs| - 1] !in msgs[..|msgs| - 1]
    ensures forall k :: k in msgs <==> k in msgs[..|msgs| - 1] || k == msgs[|msgs| - 1]
  {
    assert msgs == msgs[..|msgs| - 1] + [msgs[|msgs| - 1]];
  }

  /** Sifting keeps exactly the messages without a token and uses up one token of each other. */
  lemma {:induction false} SiftExact(msgs: seq<Key>, tokens: multiset<Key>, k: Key)
    requires NoRepeats(msgs)
    ensures k in Sift(msgs, tokens).0 <==> k in msgs && k !in tokens
    ensures Sift(msgs, tokens).1[k] == (if k in msgs && k in tokens then tokens[k] - 1 else tokens[k])
  {
    if msgs != [] {
      hide NoRepeats;
      var init, last := msgs[..|msgs| - 1], msgs[|msgs| - 1];
      NoRepeatsInit(msgs);
      SiftExact(init, tokens, k);
      SiftExact(init, tokens, last);
    }
  }

  lemma {:induction false} UnrecognisedExact(msgs: seq<Key>, recognised: set<Key>, k: Key)
    ensures k in Unrecognised(msgs, recognised) <==> k in msgs && k !in recognised
  {
    if msgs != [] {
      UnrecognisedExact(msgs[..|msgs| - 1], recognised, k);
      assert msgs == msgs[..|msgs| - 1] + [msgs[|msgs| - 1]];
    }
  }

  lemma {:induction false} SiftLast(msgs: seq<Key>, tokens: multiset<Key>)
    requires msgs != []
    ensures var before, last := Sift(msgs[..|msgs| - 1], tokens).0, msgs[|msgs| - 1];
            Sift(msgs, tokens).0 == before || Sift(msgs, tokens).0 == before + [last]
  {
  }

  lemma {:induction false} UnrecognisedLast(msgs: seq<Key>, recognised: set<Key>)
    requires msgs != []
    ensures var before, last := Unrecognised(msgs[..|msgs| - 1], recognised), msgs[|msgs| - 1];
            Unrecognised(msgs, recognised) == before || Unrecognised(msgs, recognised) == before + [last]
  {
  }

  lemma {:induction false} NothingChecked(tokens: multiset<Key>, recognised: set<Key>)
    ensures Sift([], tokens) == ([], tokens) && Unrecognised([], recognised) == []
  {
  }

  /** What is kept keeps its order. */
  lemma {:induction false} SiftKeepsOrder(msgs: seq<Key>, tokens: multiset<Key>)
    ensures Subsequence(Sift(msgs, tokens).0, msgs)
  {
    hide *;
    if msgs == [] {
      NothingChecked(tokens, {});
      NothingIsSubsequence(msgs);
    } else {
      var init, last := msgs[..|msgs| - 1], msgs[|msgs| - 1];
      SiftKeepsOrder(init, tokens);
      SiftLast(msgs, tokens);
      SubsequenceTakes(Sift(init, tokens).0, init, last);
      assert msgs == init + [last];
    }
  }

  lemma {:induction false} UnrecognisedKeepsOrder(msgs: seq<Key>, recognised: set<Key>)
    ensures Subsequence(Unrecognised(msgs, recognised), msgs)
  {
    hide *;
    if msgs == [] {
      NothingChecked(multiset{}, recognised);
      NothingIsSubsequence(msgs);
    } else {
      var init, last := msgs[..|msgs| - 1], msgs[|msgs| - 1];
      UnrecognisedKeepsOrder(init, recognised);
      UnrecognisedLast(msgs, recognised);
      SubsequenceTakes(Unrecognised(init, recognised), init, last);
      assert msgs == init + [last];
    }
  }
}
