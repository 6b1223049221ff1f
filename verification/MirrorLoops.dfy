/**
 Runs in which a bridge-made message is mirrored again, up to the copy of it that is sent:
 one for each way a message can reach a worker without its token. They show that the
 condition of the no-loop theorem is met by nothing weaker.
 */
module MirrorLoops {
  import opened Sequences
  import opened Messages
  import opened MirrorProtocol
  import opened MirrorSafety
  import Albums
  import Sorting

  const LIMITS := Limits(1, 2)
  const TG_CHAT := "t"
  const BALE_CHAT := "b"

  lemma {:induction false} SiftOne(k: Key, tokens: multiset<Key>)
    requires k !in tokens
    ensures Sift([k], tokens) == ([k], tokens)
    ensures Unrecognised([k], {}) == [k]
  {
    assert [k][..0] == [] && [k][0] == k;
    assert Sift([], tokens) == ([], tokens) && Unrecognised([], {}) == [];
    assert [] + [k] == [k];
  }

  /** A step taken from `s` to `t`. */
  predicate Steps(s: State, step: Step, t: State)
  {
    Enabled(s, step, LIMITS) && Next(s, step, LIMITS) == t
  }

  /** The first `n` steps lead to `t`. */
  ghost predicate Leads(steps: seq<Step>, n: nat, t: State)
    requires n <= |steps|
  {
    exists states: seq<State> :: IsRun(states, steps[..n], LIMITS) && states[n] == t
  }

  lemma {:induction false} LeadsFromStart(steps: seq<Step>)
    ensures Leads(steps, 0, Start)
  {
    assert IsRun([Start], steps[..0], LIMITS);
  }

  lemma {:induction false} LeadsOn(steps: seq<Step>, n: nat, s: State, t: State)
    requires n < |steps| && Leads(steps, n, s) && Steps(s, steps[n], t)
    ensures Leads(steps, n + 1, t)
  {
    hide Next;
    hide Enabled;
    var states :| IsRun(states, steps[..n], LIMITS) && states[n] == s;
    assert steps[..n + 1] == steps[..n] + [steps[n]];
    assert IsRun(states + [t], steps[..n + 1], LIMITS);
  }

  /** The bridge's own message `k` was mirrored, and `copy` has been sent for it. */
  predicate Remirrored(s: State, k: Key, copy: Key)
  {
    && k in s.bridgeMade && k in s.mirrored && !LoopFree(s)
    && copy in s.bridgeMade && copy in s.WorkerOf(k.platform).Made()
  }

  /** Some run takes these steps and ends like that. */
  ghost predicate Loops(steps: seq<Step>, k: Key, copy: Key)
  {
    exists states: seq<State> :: IsRun(states, steps, LIMITS) && Remirrored(states[|steps|], k, copy)
  }

  lemma {:induction false} LeadsToLoop(steps: seq<Step>, t: State, k: Key, copy: Key)
    requires Leads(steps, |steps|, t) && Remirrored(t, k, copy)
    ensures Loops(steps, k, copy)
  {
    hide IsRun;
    hide Remirrored;
    assert steps[..|steps|] == steps;
  }

  /** What a worker that takes the job `[k]` for one pair, and sends one message, leaves. */
  function Handed(s: State, k: Key, chat: string): State
    requires s.b.At(k.platform).queue == [[k]]
  {
    s.(b := Taken(s.b, k.platform), mirrored := s.mirrored + {k}).WithTaken(k.platform, [k])
     .WithWorker(k.platform, Busy([Leg(chat, 1)], []))
  }

  function Copied(s: State, k: Key, chat: string): State
    requires s.b.At(k.platform).queue == [[k]]
  {
    var copy := Key(Other(k.platform), chat, s.next);
    Handed(s, k, chat).(next := s.next + 1, inflight := s.inflight + [copy], bridgeMade := s.bridgeMade + {copy})
      .WithWorker(k.platform, Busy([Leg(chat, 0)], [copy]))
  }

  lemma {:induction false} JobIsHanded(s: State, k: Key, chat: string)
    requires s.b.At(k.platform).queue == [[k]] && !s.b.paused && s.WorkerOf(k.platform).Idle? && k !in s.b.tokens
    ensures Steps(s, Take(k.platform, {}, [Leg(chat, 1)]), Handed(s, k, chat))
  {
    hide Sift;
    hide Unrecognised;
    hide Copies;
    hide Taken;
    SiftOne(k, s.b.tokens);
    OneLeg(chat, 1);
    assert (set x | x in [k]) == {k};
  }

  lemma {:induction false} CopyIsSent(s: State, k: Key, chat: string)
    requires s.b.At(k.platform).queue == [[k]]
    ensures Steps(Handed(s, k, chat), Send(k.platform), Copied(s, k, chat))
  {
    hide Taken;
    var copy := Key(Other(k.platform), chat, s.next);
    assert [Leg(chat, 1)][0 := Leg(chat, 0)] == [Leg(chat, 0)] && [] + [copy] == [copy];
  }

  /** The bridge's own message `k` waits alone in the queue, its worker is idle, and it has no token. */
  predicate Unguarded(s: State, k: Key)
  {
    && s.b.At(k.platform).queue == [[k]] && !s.b.paused && s.WorkerOf(k.platform).Idle?
    && k !in s.b.tokens && k in s.bridgeMade
  }

  /** When a worker takes an echo `k` that has no token, and a pair serves its chat, a copy of it is sent. */
  lemma {:induction false} EchoIsCopied(steps: seq<Step>, n: nat, s: State, k: Key, chat: string)
    requires |steps| == n + 2 && Leads(steps, n, s)
    requires steps[n] == Take(k.platform, {}, [Leg(chat, 1)]) && steps[n + 1] == Send(k.platform)
    requires Unguarded(s, k)
    ensures Loops(steps, k, Key(Other(k.platform), chat, s.next))
  {
    hide Leads;
    hide Steps;
    hide Loops;
    JobIsHanded(s, k, chat);
    CopyIsSent(s, k, chat);
    LeadsOn(steps, n, s, Handed(s, k, chat));
    LeadsOn(steps, n + 1, Handed(s, k, chat), Copied(s, k, chat));
    LeadsToLoop(steps, Copied(s, k, chat), k, Key(Other(k.platform), chat, s.next));
  }

  // ------------------------------------------------ one user message and its copy

  /** The state in which a user's message has been posted and not delivered yet. */
  function Posted(k: Key): State
  {
    Start.(next := 1, inflight := [k])
  }

  /** The state in which it waits in the queue of its platform. */
  function Queued(k: Key): State
  {
    Start.(next := 1, b := Start.b.With(k.platform, Inbox([[k]], [])))
  }

  function CopyOf(k: Key, chat: string): Key
  {
    Key(Other(k.platform), chat, 1)
  }

  /** The state in which its copy is sent, and queued again, before it is recorded. */
  function Overtaken(k: Key, chat: string): State
  {
    var copy := CopyOf(k, chat);
    Start.(next := 2, mirrored := {k}, bridgeMade := {copy}, b := Start.b.With(copy.platform, Inbox([[copy]], [])))
     .WithTaken(k.platform, [k]).WithWorker(k.platform, Busy([Leg(chat, 0)], [copy]))
  }

  lemma {:induction false} UserPosts(p: Platform, chat: string)
    ensures var k := Key(p, chat, 0);
            Steps(Start, Post(p, chat), Posted(k)) && Steps(Posted(k), Deliver(0, None), Queued(k))
  {
    var k := Key(p, chat, 0);
    assert RemoveAt([k], 0) == [] && [] + [k] == [k] && [] + [[k]] == [[k]];
  }

  lemma {:induction false} QueuedIsCopied(k: Key, chat: string)
    ensures var copy, t := CopyOf(k, chat), Copied(Queued(k), k, chat);
            t == Overtaken(k, chat).(inflight := [copy], b := Start.b)
  {
    SiftOne(k, multiset{});
    hide Sift;
    assert [[k]][1..] == [];
    assert {} + {k} == {k} && {} + {CopyOf(k, chat)} == {CopyOf(k, chat)};
  }

  lemma {:induction false} EchoOvertakes(k: Key, chat: string)
    ensures Steps(Copied(Queued(k), k, chat), Deliver(0, None), Overtaken(k, chat))
  {
    QueuedIsCopied(k, chat);
    hide Copied;
    var copy := CopyOf(k, chat);
    assert RemoveAt([copy], 0) == [] && [] + [[copy]] == [[copy]];
  }

  /** The five steps up to there. */
  lemma {:induction false} LeadsToEcho(steps: seq<Step>, k: Key, chat: string)
    requires k.id == 0 && |steps| >= 5 && steps[0] == Post(k.platform, k.chat) && steps[1] == Deliver(0, None)
    requires steps[2] == Take(k.platform, {}, [Leg(chat, 1)]) && steps[3] == Send(k.platform)
    requires steps[4] == Deliver(0, None)
    ensures Leads(steps, 5, Overtaken(k, chat))
  {
    hide Leads;
    hide Steps;
    hide Copies;
    hide Sift;
    assert Queued(k).b.At(k.platform).queue == [[k]];
    UserPosts(k.platform, k.chat);
    JobIsHanded(Queued(k), k, chat);
    CopyIsSent(Queued(k), k, chat);
    EchoOvertakes(k, chat);
    hide *;
    LeadsFromStart(steps);
    LeadsOn(steps, 0, Start, Posted(k));
    LeadsOn(steps, 1, Posted(k), Queued(k));
    LeadsOn(steps, 2, Queued(k), Handed(Queued(k), k, chat));
    LeadsOn(steps, 3, Handed(Queued(k), k, chat), Copied(Queued(k), k, chat));
    LeadsOn(steps, 4, Copied(Queued(k), k, chat), Overtaken(k, chat));
  }

  /** The steps of the run below. */
  const OVERTAKEN := [
    Post(Tg, TG_CHAT), Deliver(0, None), Take(Tg, {}, [Leg(BALE_CHAT, 1)]), Send(Tg), Deliver(0, None),
    Take(Bale, {}, [Leg(TG_CHAT, 1)]), Send(Bale)]

  /**
   The echo is faster than the record: a message whose echo is taken before `pair_send` has
   recorded it is mirrored, and a second message appears in the chat the first came from.
   */
  lemma {:induction false} EchoBeforeRecordLoops()
    ensures Loops(OVERTAKEN, Key(Bale, BALE_CHAT, 1), Key(Tg, TG_CHAT, 2))
  {
    hide Leads;
    hide Loops;
    var k := Key(Tg, TG_CHAT, 0);
    LeadsToEcho(OVERTAKEN, k, BALE_CHAT);
    EchoIsCopied(OVERTAKEN, 5, Overtaken(k, BALE_CHAT), CopyOf(k, BALE_CHAT), TG_CHAT);
  }

  // ------------------------------------------------ an edit takes the token of a queued echo

  const TG_COPY := Key(Tg, TG_CHAT, 1)

  function Recorded(): State
  {
    var s := Overtaken(Key(Bale, BALE_CHAT, 0), TG_CHAT);
    s.(baleWorker := Idle, recorded := {TG_COPY}, b := s.b.(tokens := multiset{TG_COPY}))
  }

  function Edited(): State
  {
    Recorded().(lost := {TG_COPY}, b := Recorded().b.(tokens := multiset{}))
  }

  lemma {:induction false} EditTakesToken()
    ensures Steps(Overtaken(Key(Bale, BALE_CHAT, 0), TG_CHAT), Record(Bale, multiset{TG_COPY}), Recorded())
    ensures Steps(Recorded(), Edit(TG_COPY), Edited())
  {
    assert [Leg(TG_CHAT, 0)][1..] == [];
    assert multiset([TG_COPY]) == multiset{TG_COPY};
    assert {} + {TG_COPY} == {TG_COPY};
  }

  lemma {:induction false} EditedIsOpen()
    ensures Unguarded(Edited(), TG_COPY) && Edited().next == 2 && Other(TG_COPY.platform) == Bale
  {
  }

  lemma {:induction false} LeadsToEdited(steps: seq<Step>)
    requires |steps| >= 7 && Leads(steps, 5, Overtaken(Key(Bale, BALE_CHAT, 0), TG_CHAT))
    requires steps[5] == Record(Bale, multiset{TG_COPY}) && steps[6] == Edit(TG_COPY)
    ensures Leads(steps, 7, Edited())
  {
    hide *;
    EditTakesToken();
    LeadsOn(steps, 5, Overtaken(Key(Bale, BALE_CHAT, 0), TG_CHAT), Recorded());
    LeadsOn(steps, 6, Recorded(), Edited());
  }

  /** The steps of the run below. */
  const EDITED_EARLY := [
    Post(Bale, BALE_CHAT), Deliver(0, None), Take(Bale, {}, [Leg(TG_CHAT, 1)]), Send(Bale), Deliver(0, None),
    Record(Bale, multiset{TG_COPY}), Edit(TG_COPY), Take(Tg, {}, [Leg(BALE_CHAT, 1)]), Send(Tg)]

  /** A message that is recorded, but edited while its first echo is still queued, is mirrored. */
  lemma {:induction false} EditBeforeEchoLoops()
    ensures Loops(EDITED_EARLY, TG_COPY, Key(Bale, BALE_CHAT, 2))
  {
    hide Leads;
    hide Loops;
    hide Unguarded;
    hide Overtaken;
    hide Edited;
    LeadsToEcho(EDITED_EARLY, Key(Bale, BALE_CHAT, 0), TG_CHAT);
    LeadsToEdited(EDITED_EARLY);
    EditedIsOpen();
    EchoIsCopied(EDITED_EARLY, 7, Edited(), TG_COPY, BALE_CHAT);
  }

  // ------------------------------------------------ a group that was sent half-way

  const FIRST := Key(Tg, TG_CHAT, 0)
  const SECOND := Key(Tg, TG_CHAT, 1)
  /** The message the group call made before it failed, and those of the fallback. */
  const LOST := Key(Bale, BALE_CHAT, 2)
  const ONE := Key(Bale, BALE_CHAT, 3)
  const TWO := Key(Bale, BALE_CHAT, 4)

  function Posted2(): State
  {
    Start.(next := 2, inflight := [FIRST, SECOND])
  }

  function Buffered(inflight: seq<Key>, items: seq<Key>): State
  {
    Posted2().(inflight := inflight, b := Start.b.(tg := Inbox([], [Albums.Album(0, items)])))
  }

  function Batched(): State
  {
    Posted2().(inflight := [], b := Start.b.(tg := Inbox([[FIRST, SECOND]], [])))
  }

  lemma {:induction false} GroupIsPosted()
    ensures Steps(Start, Post(Tg, TG_CHAT), Posted(FIRST)) && Steps(Posted(FIRST), Post(Tg, TG_CHAT), Posted2())
  {
    assert [] + [FIRST] == [FIRST] && [FIRST] + [SECOND] == [FIRST, SECOND];
  }

  lemma {:induction false} AlbumGrows(items: seq<Key>, k: Key)
    ensures Albums.Fed([Albums.Album(0 as nat, items)], 0, k) == [Albums.Album(0, items + [k])]
  {
    OnlyAlbum(items);
    hide Albums.Find;
    var albums := [Albums.Album(0 as nat, items)];
    assert albums[0 := Albums.Album(0, items + [k])] == [Albums.Album(0, items + [k])];
  }

  lemma {:induction false} GroupIsBuffered()
    ensures Steps(Posted2(), Deliver(0, Some(0)), Buffered([SECOND], [FIRST]))
    ensures Steps(Buffered([SECOND], [FIRST]), Deliver(0, Some(0)), Buffered([], [FIRST, SECOND]))
  {
    assert RemoveAt([FIRST, SECOND], 0) == [SECOND] && RemoveAt([SECOND], 0) == [];
    assert Albums.Fed([], 0 as nat, FIRST) == [Albums.Album(0, [FIRST])];
    AlbumGrows([FIRST], SECOND);
    hide Albums.Fed;
    assert [FIRST] + [SECOND] == [FIRST, SECOND];
  }

  lemma {:induction false} GroupIsSorted()
    ensures Sorting.StableSort(ById, [FIRST, SECOND]) == [FIRST, SECOND]
  {
    assert [FIRST, SECOND][..1] == [FIRST] && [FIRST][..0] == [];
    assert Sorting.StableSort(ById, [FIRST]) == [FIRST];
  }

  lemma {:induction false} OnlyAlbum(items: seq<Key>)
    ensures var albums := [Albums.Album(0 as nat, items)];
            Albums.Find(albums, 0) == 0 && Albums.Popped(albums, 0) == (items, [])
  {
    var albums := [Albums.Album(0 as nat, items)];
    assert Albums.Find(albums, 0) == 0 && RemoveAt(albums, 0) == [];
  }

  lemma {:induction false} GroupIsFlushed()
    ensures Flushed(Inbox([], [Albums.Album(0, [FIRST, SECOND])]), 0) == Inbox([[FIRST, SECOND]], [])
  {
    OnlyAlbum([FIRST, SECOND]);
    hide Albums.Popped;
    hide Albums.Find;
    GroupIsSorted();
    hide Sorting.StableSort;
    assert [] + [[FIRST, SECOND]] == [[FIRST, SECOND]];
  }

  lemma {:induction false} GroupIsBatched()
    ensures Steps(Buffered([], [FIRST, SECOND]), Timer(Tg, 0), Batched())
  {
    OnlyAlbum([FIRST, SECOND]);
    hide Albums.Popped;
    hide Albums.Find;
    GroupIsFlushed();
    hide Flushed;
    hide Sorting.StableSort;
  }

  /** The worker has made these messages for the group, and has `n` to make. */
  function Sending(n: nat, made: seq<Key>): State
  {
    Start.(next := 2 + |made|, mirrored := {FIRST, SECOND}, inflight := made, bridgeMade := (set k | k in made),
      tgTaken := [[FIRST, SECOND]], tgWorker := Busy([Leg(BALE_CHAT, n)], made))
  }

  lemma {:induction false} GroupIsTaken()
    ensures Steps(Batched(), Take(Tg, {}, [Leg(BALE_CHAT, 3)]), Sending(3, []))
  {
    hide Sift;
    hide Unrecognised;
    hide Copies;
    var job := [FIRST, SECOND];
    GroupIsKept();
    OneLeg(BALE_CHAT, 3);
    var jobs := [job];
    assert jobs[1..] == [];
    assert (set k | k in job) == {FIRST, SECOND};
    assert {} + {FIRST, SECOND} == {FIRST, SECOND};
  }

  lemma {:induction false} GroupIsKept()
    ensures var job := [FIRST, SECOND];
            Sift(job, multiset{}) == (job, multiset{}) && Unrecognised(job, {}) == job
  {
    var job := [FIRST, SECOND];
    SiftOne(FIRST, multiset{});
    assert job[..1] == [FIRST] && [FIRST] + [SECOND] == job;
  }

  lemma {:induction false} OneLeg(chat: string, n: nat)
    ensures Copies([Leg(chat, n)]) == n
  {
    assert [Leg(chat, n)][..0] == [];
  }

  lemma {:induction false} GroupSendsOne(n: nat, made: seq<Key>)
    ensures Steps(Sending(n + 1, made), Send(Tg), Sending(n, made + [Key(Bale, BALE_CHAT, 2 + |made|)]))
  {
    var k := Key(Bale, BALE_CHAT, 2 + |made|);
    assert [Leg(BALE_CHAT, n + 1)][0 := Leg(BALE_CHAT, n)] == [Leg(BALE_CHAT, n)];
    assert (set x | x in made + [k]) == (set x | x in made) + {k};
  }

  lemma {:induction false} GroupIsSent()
    ensures Steps(Sending(3, []), Send(Tg), Sending(2, [LOST]))
    ensures Steps(Sending(2, [LOST]), Send(Tg), Sending(1, [LOST, ONE]))
    ensures Steps(Sending(1, [LOST, ONE]), Send(Tg), Sending(0, [LOST, ONE, TWO]))
  {
    hide Steps;
    assert [] + [LOST] == [LOST] && [LOST] + [ONE] == [LOST, ONE] && [LOST, ONE] + [TWO] == [LOST, ONE, TWO];
    GroupSendsOne(2, []);
    GroupSendsOne(1, [LOST]);
    GroupSendsOne(0, [LOST, ONE]);
  }

  function HalfRecorded(): State
  {
    Sending(0, [LOST, ONE, TWO]).(tgWorker := Idle, recorded := {ONE, TWO},
                                  b := Start.b.(tokens := multiset{ONE, TWO}))
  }

  function HalfEchoed(): State
  {
    HalfRecorded().(inflight := [ONE, TWO], b := HalfRecorded().b.(bale := Inbox([[LOST]], [])))
  }

  lemma {:induction false} HalfIsKept(made: seq<Key>, kept: multiset<Key>)
    requires made == [LOST, ONE, TWO] && kept == multiset{ONE, TWO}
    ensures kept <= multiset(made) && multiset{} + kept == kept && {} + (set k | k in kept) == {ONE, TWO}
  {
    assert multiset(made) == multiset{LOST} + kept;
  }

  lemma {:induction false} HalfIsRecorded()
    ensures Steps(Sending(0, [LOST, ONE, TWO]), Record(Tg, multiset{ONE, TWO}), HalfRecorded())
  {
    assert [Leg(BALE_CHAT, 0)][1..] == [];
    HalfIsKept([LOST, ONE, TWO], multiset{ONE, TWO});
  }

  lemma {:induction false} HalfIsEchoed()
    ensures Steps(HalfRecorded(), Deliver(0, None), HalfEchoed())
  {
    assert RemoveAt([LOST, ONE, TWO], 0) == [ONE, TWO] && [] + [[LOST]] == [[LOST]];
    assert LOST !in HalfRecorded().b.tokens;
  }

  lemma {:induction false} HalfEchoedIsOpen()
    ensures Unguarded(HalfEchoed(), LOST) && HalfEchoed().next == 5 && Other(LOST.platform) == Tg
  {
  }

  lemma {:induction false} LeadsToBatch(steps: seq<Step>)
    requires |steps| >= 5 && steps[0] == Post(Tg, TG_CHAT) && steps[1] == Post(Tg, TG_CHAT)
    requires steps[2] == Deliver(0, Some(0)) && steps[3] == Deliver(0, Some(0)) && steps[4] == Timer(Tg, 0)
    ensures Leads(steps, 5, Batched())
  {
    hide *;
    GroupIsPosted();
    GroupIsBuffered();
    GroupIsBatched();
    LeadsFromStart(steps);
    LeadsOn(steps, 0, Start, Posted(FIRST));
    LeadsOn(steps, 1, Posted(FIRST), Posted2());
    LeadsOn(steps, 2, Posted2(), Buffered([SECOND], [FIRST]));
    LeadsOn(steps, 3, Buffered([SECOND], [FIRST]), Buffered([], [FIRST, SECOND]));
    LeadsOn(steps, 4, Buffered([], [FIRST, SECOND]), Batched());
  }

  lemma {:induction false} LeadsToHalf(steps: seq<Step>)
    requires |steps| >= 11 && Leads(steps, 5, Batched())
    requires steps[5] == Take(Tg, {}, [Leg(BALE_CHAT, 3)])
    requires steps[6] == Send(Tg) && steps[7] == Send(Tg) && steps[8] == Send(Tg)
    requires steps[9] == Record(Tg, multiset{ONE, TWO}) && steps[10] == Deliver(0, None)
    ensures Leads(steps, 11, HalfEchoed())
  {
    hide *;
    GroupIsTaken();
    GroupIsSent();
    HalfIsRecorded();
    HalfIsEchoed();
    LeadsOn(steps, 5, Batched(), Sending(3, []));
    LeadsOn(steps, 6, Sending(3, []), Sending(2, [LOST]));
    LeadsOn(steps, 7, Sending(2, [LOST]), Sending(1, [LOST, ONE]));
    LeadsOn(steps, 8, Sending(1, [LOST, ONE]), Sending(0, [LOST, ONE, TWO]));
    LeadsOn(steps, 9, Sending(0, [LOST, ONE, TWO]), HalfRecorded());
    LeadsOn(steps, 10, HalfRecorded(), HalfEchoed());
  }

  /** The steps of the run below. */
  const HALF_SENT := [
    Post(Tg, TG_CHAT), Post(Tg, TG_CHAT), Deliver(0, Some(0)), Deliver(0, Some(0)), Timer(Tg, 0),
    Take(Tg, {}, [Leg(BALE_CHAT, 3)]), Send(Tg), Send(Tg), Send(Tg), Record(Tg, multiset{ONE, TWO}),
    Deliver(0, None), Take(Bale, {}, [Leg(TG_CHAT, 1)]), Send(Bale)]

  /**
   An album of two messages: the group call fails after its first message exists, and the
   fallback alone is recorded. That first message is mirrored although `pair_send` returned.
   */
  lemma {:induction false} HalfSentGroupLoops()
    ensures Loops(HALF_SENT, LOST, Key(Tg, TG_CHAT, 5))
  {
    hide Leads;
    hide Loops;
    hide Batched;
    hide HalfEchoed;
    hide Unguarded;
    LeadsToBatch(HALF_SENT);
    LeadsToHalf(HALF_SENT);
    HalfEchoedIsOpen();
    EchoIsCopied(HALF_SENT, 11, HalfEchoed(), LOST, TG_CHAT);
  }
}
