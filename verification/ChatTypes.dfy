/**
 The cache of Bale chat types (bridge/bale/session.py) and everything that writes it:
 `normalize`, `on_deleted`, `ensure_chat_type` and `get_chat`. Bale updates may show a
 channel as a group, so a group-like type is cached as ambiguous until a probe settles it.
 The two asynchronous writers read the cache, wait for the network, and then write.
 */
module ChatTypes {
  import opened Sequences

  /** "private", "group", "channel", and "group?" for the ambiguous ones. */
  datatype Kind = Private | Group | Channel | Ambiguous

  /** What the session knows of one chat: its cached type and the type in its metadata. */
  datatype Entry = Entry(cached: Option<Kind>, meta: Option<Kind>)

  /** `chat_type_name`; `None` is a value that is not a number. */
  function TypeName(raw: Option<int>): Kind
  {
    if raw == Some(2) || raw == Some(5) then Group else if raw == Some(3) then Channel else Private
  }

  /** `group_like_type_value` */
  predicate GroupLike(raw: Option<int>, peerTypes: bool)
  {
    raw == Some(2) || (!peerTypes && raw == Some(5))
  }

  function OrElse(a: Option<Kind>, b: Kind): Kind
  {
    if a.Some? then a.value else b
  }

  /** The cache writes of `normalize`. */
  function Normalized(e: Entry, raw: Option<int>, fromPeer: bool): Entry
  {
    var cached := if GroupLike(raw, fromPeer) then OrElse(e.cached, Ambiguous) else TypeName(raw);
    Entry(Some(cached), Some(OrElse(e.meta, TypeName(raw))))
  }

  /** The cache write of `on_deleted`. */
  function Deleted(e: Entry, raw: Option<int>): Entry
  {
    if e.cached.Some? then e
    else e.(cached := Some(if GroupLike(raw, true) then Ambiguous else Private))
  }

  /** `note_chat` with the given type, if any. */
  function Noted(e: Entry, info: Option<Kind>): Entry
  {
    var kind := OrElse(info, OrElse(e.meta, Private));
    Entry(Some(kind), Some(kind))
  }

  /** Whether `ensure_chat_type` has to ask the network. */
  predicate NeedsProbe(cached: Option<Kind>)
  {
    cached == None || cached == Some(Ambiguous)
  }

  /** The end of `ensure_chat_type`; `None` is a failed probe. `snapshot` is what it read before it waited. */
  function Probed(e: Entry, snapshot: Option<Kind>, answer: Option<bool>): Entry
  {
    match answer
    case Some(isChannel) => Noted(e, Some(if isChannel then Channel else Group))
    case None => if snapshot == None then e.(cached := Some(OrElse(e.cached, Private))) else e
  }

  /** The network's answers in `get_chat`. */
  datatype Answer = Full(isChannel: bool) | User | Neither

  /** The end of `get_chat`: when both lookups fail it writes back what it read before it waited. */
  function Fetched(e: Entry, snapshot: Option<Kind>, answer: Answer): Entry
  {
    match answer
    case Full(isChannel) => Noted(e, Some(if isChannel then Channel else Group))
    case User => Noted(e, Some(Private))
    case Neither => Noted(e, snapshot)
  }

  class BaleSession {
    var types: map<string, Kind>
    var meta: map<string, Kind>

    function EntryOf(chat: string): Entry
      reads this
    {
      Entry(if chat in types then Some(types[chat]) else None, if chat in meta then Some(meta[chat]) else None)
    }

    constructor ()
      ensures types == map[] && meta == map[]
    {
      types, meta := map[], map[];
    }

    method NoteChat(chat: string, info: Option<Kind>)
      modifies this
      ensures EntryOf(chat) == Noted(old(EntryOf(chat)), info)
      ensures forall other | other != chat :: EntryOf(other) == old(EntryOf(other))
    {
      var kind := if info.Some? then info.value else if chat in meta then meta[chat] else Private;
      meta := meta[chat := kind];
      types := types[chat := kind];
    }

    method Normalize(chat: string, raw: Option<int>, fromPeer: bool)
      modifies this
      ensures EntryOf(chat) == Normalized(old(EntryOf(chat)), raw, fromPeer)
      ensures forall other | other != chat :: EntryOf(other) == old(EntryOf(other))
    {
      var ct := TypeName(raw);
      var ambiguous := GroupLike(raw, fromPeer);
      if chat !in types {
        types := types[chat := if ambiguous then Ambiguous else ct];
      }
      if !ambiguous {
        types := types[chat := ct];
      }
      if chat !in meta {
        meta := meta[chat := ct];
      }
    }

    method OnDeleted(chat: string, raw: Option<int>) returns (ct: Kind)
      modifies this
      ensures EntryOf(chat) == Deleted(old(EntryOf(chat)), raw) && EntryOf(chat).cached == Some(ct)
      ensures forall other | other != chat :: EntryOf(other) == old(EntryOf(other))
    {
      if chat in types {
        ct := types[chat];
      } else {
        ct := if GroupLike(raw, true) then Ambiguous else Private;
        types := types[chat := ct];
      }
    }

    method EndProbe(chat: string, snapshot: Option<Kind>, answer: Option<bool>) returns (kind: Kind)
      requires NeedsProbe(snapshot)
      modifies this
      ensures EntryOf(chat) == Probed(old(EntryOf(chat)), snapshot, answer)
      ensures answer.Some? ==> EntryOf(chat).cached == Some(kind)
      ensures answer == None ==> kind == if snapshot == None then Private else Group
      ensures forall other | other != chat :: EntryOf(other) == old(EntryOf(other))
    {
      if answer == None {
        if snapshot == None {
          if chat !in types {
            types := types[chat := Private];
          }
          return Private;
        }
        return Group;
      }
      kind := if answer.value then Channel else Group;
      types := types[chat := kind];
      NoteChat(chat, Some(kind));
    }

    method EndGetChat(chat: string, snapshot: Option<Kind>, answer: Answer)
      modifies this
      ensures EntryOf(chat) == Fetched(old(EntryOf(chat)), snapshot, answer)
      ensures forall other | other != chat :: EntryOf(other) == old(EntryOf(other))
    {
      var out := match answer
        case Full(isChannel) => Some(if isChannel then Channel else Group)
        case User => Some(Private)
        case Neither => snapshot;
      NoteChat(chat, out);
    }
  }

  // ------------------------------------------------ one chat over a run

  /** The chat's entry, and what each waiting `ensure_chat_type` and `get_chat` has read. */
  datatype State = State(e: Entry, probes: seq<Option<Kind>>, gets: seq<Option<Kind>>)

  datatype Step =
    | Update(raw: Option<int>, fromPeer: bool)
    | Delete(raw: Option<int>)
    | BeginProbe
    | EndProbe(i: nat, found: Option<bool>)
    | BeginGet
    | EndGet(i: nat, answer: Answer)

  const Start := State(Entry(None, None), [], [])

  predicate Enabled(s: State, step: Step)
  {
    match step
    case Update(_, _) => true
    case Delete(_) => true
    case BeginProbe => NeedsProbe(s.e.cached)
    case EndProbe(i, _) => i < |s.probes|
    case BeginGet => true
    case EndGet(i, _) => i < |s.gets|
  }

  function Next(s: State, step: Step): State
    requires Enabled(s, step)
  {
    match step
    case Update(raw, fromPeer) => s.(e := Normalized(s.e, raw, fromPeer))
    case Delete(raw) => s.(e := Deleted(s.e, raw))
    case BeginProbe => s.(probes := s.probes + [s.e.cached])
    case EndProbe(i, found) => s.(e := Probed(s.e, s.probes[i], found), probes := RemoveAt(s.probes, i))
    case BeginGet => s.(gets := s.gets + [s.e.cached])
    case EndGet(i, answer) => s.(e := Fetched(s.e, s.gets[i], answer), gets := RemoveAt(s.gets, i))
  }

  /**
   What the platform says about a channel: updates carry its true or a group-like chat type,
   or a peer type, which knows groups (2) and users (1) only; probes that succeed are
   truthful, and no look-up takes the channel for a user.
   */
  predicate Truthful(step: Step)
  {
    match step
    case Update(raw, fromPeer) =>
      raw == Some(2) || (fromPeer && raw == Some(1)) || (!fromPeer && (raw == Some(3) || raw == Some(5)))
    case Delete(raw) => raw == Some(1) || raw == Some(2)
    case EndProbe(_, found) => found != Some(false)
    case EndGet(_, answer) => answer == Full(true) || answer == Neither
    case _ => true
  }

  /** A `get_chat` whose lookups both failed writes back "group" from the metadata, having read nothing. */
  predicate Poisons(s: State, step: Step)
  {
    step.EndGet? && step.i < |s.gets| && step.answer == Neither && s.gets[step.i] == None && s.e.meta == Some(Group)
  }

  /** An update or a deletion shows the chat with the peer type of a user. */
  predicate LooksPrivate(step: Step)
  {
    (step.Update? || step.Delete?) && step.raw == Some(1)
  }

  /** An update with that peer type, or a `get_chat` whose lookups both failed, writes something else over "channel". */
  predicate Forgets(s: State, step: Step)
  {
    && s.e.cached == Some(Channel)
    && (|| (step.Update? && LooksPrivate(step))
        || (&& step.EndGet? && step.i < |s.gets| && step.answer == Neither
            && OrElse(s.gets[step.i], OrElse(s.e.meta, Private)) != Channel))
  }

  /** The cache has changed since the `get_chat` that ends now has read it. */
  predicate Stale(s: State, step: Step)
  {
    step.EndGet? && step.i < |s.gets| && step.answer == Neither && s.gets[step.i] != s.e.cached
  }

  /** Not cached as a group, by nobody about to write it back either. */
  ghost predicate NotGroup(s: State)
  {
    && s.e.cached != Some(Group)
    && (forall k | k in s.gets :: k != Some(Group))
    && (s.e.meta.Some? ==> s.e.cached.Some?)
  }

  lemma {:induction false} RemovedWasThere<T>(xs: seq<T>, i: nat)
    requires i < |xs|
    ensures forall x | x in RemoveAt(xs, i) :: x in xs
  {
  }

  /** One truthful step caches the channel as a group exactly when it is such a `get_chat`. */
  lemma {:induction false} StepPoisons(s: State, step: Step)
    requires NotGroup(s) && Enabled(s, step) && Truthful(step)
    ensures NotGroup(Next(s, step)) <==> !Poisons(s, step)
    ensures Poisons(s, step) ==> Next(s, step).e.cached == Some(Group)
  {
    match step
    case EndProbe(i, _) => RemovedWasThere(s.probes, i);
    case EndGet(i, _) =>
      RemovedWasThere(s.gets, i);
      assert s.gets[i] in s.gets;
    case _ =>
  }

  /** Once cached as a channel it stays so, except through such a step. */
  lemma {:induction false} StepForgets(s: State, step: Step)
    requires s.e.cached == Some(Channel) && Enabled(s, step) && Truthful(step)
    ensures Next(s, step).e.cached == Some(Channel) <==> !Forgets(s, step)
  {
  }

  /** Without that peer type both need a `get_chat` that overlapped a change of the cache. */
  lemma {:induction false} OnlyStaleWritesHarm(s: State, step: Step)
    requires NotGroup(s) && (Poisons(s, step) || (Forgets(s, step) && !LooksPrivate(step)))
    ensures Stale(s, step)
  {
  }

  ghost predicate IsRun(states: seq<State>, steps: seq<Step>)
  {
    && |states| == |steps| + 1 && states[0] == Start
    && forall i | 0 <= i < |steps| ::
         Enabled(states[i], steps[i]) && Truthful(steps[i]) && states[i + 1] == Next(states[i], steps[i])
  }

  lemma {:induction false} NotGroupOverRuns(states: seq<State>, steps: seq<Step>, n: nat)
    requires IsRun(states, steps) && n <= |steps|
    requires forall i | 0 <= i < n :: !Poisons(states[i], steps[i])
    ensures NotGroup(states[n])
  {
    if n > 0 {
      NotGroupOverRuns(states, steps, n - 1);
      hide NotGroup;
      hide Poisons;
      hide Enabled;
      hide Truthful;
      StepPoisons(states[n - 1], steps[n - 1]);
    }
  }

  /** A true channel is never cached as "group", in every run exactly until a `get_chat` poisons the cache. */
  lemma {:induction false} ChannelNeverGroup(states: seq<State>, steps: seq<Step>)
    requires IsRun(states, steps)
    ensures (forall n | 0 <= n <= |steps| :: states[n].e.cached != Some(Group))
            <==> forall i | 0 <= i < |steps| :: !Poisons(states[i], steps[i])
  {
    if forall i | 0 <= i < |steps| :: !Poisons(states[i], steps[i]) {
      forall n | 0 <= n <= |steps|
        ensures states[n].e.cached != Some(Group)
      {
        NotGroupOverRuns(states, steps, n);
      }
    } else {
      FirstPoison(states, steps, |steps|);
    }
  }

  lemma {:induction false} FirstPoison(states: seq<State>, steps: seq<Step>, n: nat)
    requires IsRun(states, steps) && n <= |steps|
    requires exists i :: 0 <= i < n && Poisons(states[i], steps[i])
    ensures exists m :: 0 <= m <= |steps| && states[m].e.cached == Some(Group)
  {
    if forall i | 0 <= i < n - 1 :: !Poisons(states[i], steps[i]) {
      NotGroupOverRuns(states, steps, n - 1);
      StepPoisons(states[n - 1], steps[n - 1]);
      assert states[n].e.cached == Some(Group);
    } else {
      FirstPoison(states, steps, n - 1);
    }
  }

  /** Once cached as "channel" it stays so, in every run exactly as long as no step forgets it. */
  lemma {:induction false} ChannelIsSticky(states: seq<State>, steps: seq<Step>, lo: nat, hi: nat)
    requires IsRun(states, steps) && lo <= hi <= |steps| && states[lo].e.cached == Some(Channel)
    ensures (forall n | lo <= n <= hi :: states[n].e.cached == Some(Channel))
            <==> forall i | lo <= i < hi :: !Forgets(states[i], steps[i])
    decreases hi
  {
    if lo < hi {
      hide Forgets;
      hide Enabled;
      hide Truthful;
      ChannelIsSticky(states, steps, lo, hi - 1);
      if forall n | lo <= n <= hi - 1 :: states[n].e.cached == Some(Channel) {
        StepForgets(states[hi - 1], steps[hi - 1]);
        assert states[hi] == Next(states[hi - 1], steps[hi - 1]);
      }
    }
  }

  /**
   So without overlapping, failing `get_chat` calls a channel is never a group, and when it is
   not shown with the peer type of a user either, what is cached as a channel stays one.
   */
  lemma {:induction false} SafeWithoutStaleWrites(states: seq<State>, steps: seq<Step>)
    requires IsRun(states, steps) && forall i | 0 <= i < |steps| :: !Stale(states[i], steps[i])
    ensures forall n | 0 <= n <= |steps| :: states[n].e.cached != Some(Group)
    ensures forall m, n | 0 <= m <= n <= |steps| && states[m].e.cached == Some(Channel) &&
                          (forall i | m <= i < n :: !LooksPrivate(steps[i])) ::
            states[n].e.cached == Some(Channel)
  {
    NoPoison(states, steps, |steps|);
    ChannelNeverGroup(states, steps);
    forall m, n | 0 <= m <= n <= |steps| && states[m].e.cached == Some(Channel) &&
                  (forall i | m <= i < n :: !LooksPrivate(steps[i]))
      ensures states[n].e.cached == Some(Channel)
    {
      forall i | m <= i < n
        ensures !Forgets(states[i], steps[i])
      {
        NotGroupOverRuns(states, steps, i);
        if Forgets(states[i], steps[i]) {
          OnlyStaleWritesHarm(states[i], steps[i]);
        }
      }
      ChannelIsSticky(states, steps, m, n);
    }
  }

  lemma {:induction false} NoPoison(states: seq<State>, steps: seq<Step>, n: nat)
    requires IsRun(states, steps) && n <= |steps|
    requires forall i | 0 <= i < |steps| :: !Stale(states[i], steps[i])
    ensures forall i | 0 <= i < n :: !Poisons(states[i], steps[i])
  {
    if n > 0 {
      NoPoison(states, steps, n - 1);
      NotGroupOverRuns(states, steps, n - 1);
      if Poisons(states[n - 1], steps[n - 1]) {
        OnlyStaleWritesHarm(states[n - 1], steps[n - 1]);
      }
    }
  }

  /** The writer is given the peer type of a user, or gets no answer about a chat it knows nothing of. */
  predicate Guesses(s: State, step: Step)
  {
    || (step.Update? && LooksPrivate(step)) || (step.Delete? && LooksPrivate(step) && s.e.cached == None)
    || (step.EndProbe? && step.i < |s.probes| && step.found == None && s.probes[step.i] == None && s.e.cached == None)
    || (step.EndGet? && step.i < |s.gets| && step.answer == Neither && s.gets[step.i] == None && s.e.meta == None)
  }

  ghost predicate NotPrivate(s: State)
  {
    s.e.cached != Some(Private) && s.e.meta != Some(Private) && forall k | k in s.gets :: k != Some(Private)
  }

  /** One truthful step caches a channel as private exactly when it is such a guess. */
  lemma {:induction false} StepGuesses(s: State, step: Step)
    requires NotPrivate(s) && Enabled(s, step) && Truthful(step)
    ensures NotPrivate(Next(s, step)) <==> !Guesses(s, step)
    ensures Guesses(s, step) ==> Next(s, step).e.cached == Some(Private)
  {
    match step
    case EndProbe(i, _) => RemovedWasThere(s.probes, i);
    case EndGet(i, _) =>
      RemovedWasThere(s.gets, i);
      assert s.gets[i] in s.gets;
    case _ =>
  }

  /**
   In every run a channel is cached as private only once a look-up has failed before anything
   was known of it, or an event has shown it with the peer type of a user.
   */
  lemma {:induction false} ChannelNeverPrivate(states: seq<State>, steps: seq<Step>, n: nat)
    requires IsRun(states, steps) && n <= |steps|
    requires forall i | 0 <= i < n :: !Guesses(states[i], steps[i])
    ensures NotPrivate(states[n])
  {
    if n > 0 {
      ChannelNeverPrivate(states, steps, n - 1);
      hide NotPrivate;
      hide Guesses;
      hide Enabled;
      hide Truthful;
      StepGuesses(states[n - 1], steps[n - 1]);
    }
  }

  const Waiting := State(Entry(None, None), [], [None])
  const Overtaken := State(Entry(Some(Ambiguous), Some(Group)), [], [None])
  const Poisoned := State(Entry(Some(Group), Some(Group)), [], [])

  lemma {:induction false} PoisoningSteps()
    ensures Next(Start, BeginGet) == Waiting
    ensures Next(Waiting, Update(Some(2), false)) == Overtaken
    ensures Enabled(Overtaken, EndGet(0, Neither)) && Next(Overtaken, EndGet(0, Neither)) == Poisoned
  {
    assert RemoveAt([Option<Kind>.None], 0) == [];
  }

  /** A run that does poison it: a group-like update arrives while a `get_chat` waits, and both lookups fail. */
  lemma {:induction false} OverlappingGetChatPoisons()
    ensures IsRun([Start, Waiting, Overtaken, Poisoned], [BeginGet, Update(Some(2), false), EndGet(0, Neither)])
    ensures Poisoned.e.cached == Some(Group)
  {
    PoisoningSteps();
    hide Next;
  }

  // ------------------------------------------------ a true group

  /** What the platform says about a group: nothing calls it a channel. */
  predicate TruthfulOfGroup(step: Step)
  {
    match step
    case Update(raw, _) => raw != Some(3)
    case EndProbe(_, found) => found != Some(true)
    case EndGet(_, answer) => answer != Full(true)
    case _ => true
  }

  ghost predicate IsGroupRun(states: seq<State>, steps: seq<Step>)
  {
    && |states| == |steps| + 1 && states[0] == Start
    && forall i | 0 <= i < |steps| ::
         Enabled(states[i], steps[i]) && TruthfulOfGroup(steps[i]) && states[i + 1] == Next(states[i], steps[i])
  }

  ghost predicate NotChannel(s: State)
  {
    s.e.cached != Some(Channel) && s.e.meta != Some(Channel) && forall k | k in s.gets :: k != Some(Channel)
  }

  lemma {:induction false} GroupStep(s: State, step: Step)
    requires NotChannel(s) && Enabled(s, step) && TruthfulOfGroup(step)
    ensures NotChannel(Next(s, step))
    ensures (step.EndProbe? && step.found.Some?) || (step.EndGet? && step.answer.Full?) ==>
              Next(s, step).e == Entry(Some(Group), Some(Group))
  {
    match step
    case EndProbe(i, _) => RemovedWasThere(s.probes, i);
    case EndGet(i, _) =>
      RemovedWasThere(s.gets, i);
      assert s.gets[i] in s.gets;
    case _ =>
  }

  /**
   A true group is never cached as a channel, in every run; and each probe or look-up that
   succeeds settles it as a group, in the cache and in the metadata.
   */
  lemma {:induction false} GroupNeverChannel(states: seq<State>, steps: seq<Step>, n: nat)
    requires IsGroupRun(states, steps) && n <= |steps|
    ensures NotChannel(states[n])
    ensures 0 < n && ((steps[n - 1].EndProbe? && steps[n - 1].found.Some?) ||
                      (steps[n - 1].EndGet? && steps[n - 1].answer.Full?)) ==>
              states[n].e == Entry(Some(Group), Some(Group))
  {
    hide NotChannel;
    hide Next;
    hide Enabled;
    hide TruthfulOfGroup;
    if n == 0 {
      StartNotChannel();
    } else {
      GroupNeverChannel(states, steps, n - 1);
      GroupStep(states[n - 1], steps[n - 1]);
    }
  }

  lemma {:induction false} StartNotChannel()
    ensures NotChannel(Start)
  {
  }

  /** And a true channel is settled as a channel by each probe or look-up that succeeds. */
  lemma {:induction false} ChannelIsSettled(s: State, step: Step)
    requires Enabled(s, step) && Truthful(step)
    requires (step.EndProbe? && step.found.Some?) || (step.EndGet? && step.answer.Full?)
    ensures Next(s, step).e == Entry(Some(Channel), Some(Channel))
  {
  }

  // ------------------------------------------------ a true user

  /** What the platform says about a user: its own type, and no probe or look-up takes it for a group. */
  predicate TruthfulOfUser(step: Step)
  {
    match step
    case Update(raw, _) => raw == Some(1) || raw == Some(4) || raw == None
    case Delete(raw) => raw == Some(1)
    case EndProbe(_, found) => found == None
    case EndGet(_, answer) => !answer.Full?
    case _ => true
  }

  ghost predicate OnlyPrivate(s: State)
  {
    && (s.e.cached == None || s.e.cached == Some(Private)) && (s.e.meta == None || s.e.meta == Some(Private))
    && forall k | k in s.gets :: k == None || k == Some(Private)
  }

  /** A true user is never cached as anything but private, and the first update or deletion says so. */
  lemma {:induction false} UserStaysPrivate(s: State, step: Step)
    requires OnlyPrivate(s) && Enabled(s, step) && TruthfulOfUser(step)
    ensures OnlyPrivate(Next(s, step))
    ensures step.Update? || step.Delete? ==> Next(s, step).e.cached == Some(Private)
  {
    match step
    case EndProbe(i, _) => RemovedWasThere(s.probes, i);
    case EndGet(i, _) =>
      RemovedWasThere(s.gets, i);
      assert s.gets[i] in s.gets;
    case _ =>
  }
}
