/**
 Long polling (bridge/botapi/events.py): updates are numbered in the order they arrive, a
 poll with an offset returns the oldest ones not below it and makes the server forget the
 rest, and the handler saves the offset before it does anything else
 (bridge/bale/routing.py). A restart resumes from the saved offset (bridge/runtime/lifecycle.py).
 */
module Polling {
  import opened Sequences

  /** What the process holds and has done: the offset, the saved one, the updates it started to handle. */
  datatype Listener = Listener(offset: nat, saved: Option<nat>, started: seq<nat>)

  function Max(a: nat, b: nat): nat
  {
    if a < b then b else a
  }

  /** One turn of the `for upd in updates` loop. The handler saves first; what it raises later is swallowed. */
  function Handled(l: Listener, upd: nat): Listener
  {
    var offset := Max(l.offset, upd + 1);
    Listener(offset, Some(offset), l.started + [upd])
  }

  function AllHandled(l: Listener, updates: seq<nat>): Listener
  {
    if updates == [] then l else Handled(AllHandled(l, updates[..|updates| - 1]), updates[|updates| - 1])
  }

  /** The offset `listen` begins with: the saved one, or just past the newest pending update. */
  function FirstOffset(saved: Option<nat>, newest: Option<nat>): nat
  {
    match saved
    case Some(offset) => offset
    case None => if newest.Some? then newest.value + 1 else 0
  }

  class ListenEngine {
    var offset: nat
    /** `bale_offset` in the database. */
    var saved: Option<nat>
    var started: seq<nat>

    function State(): Listener
      reads this
    {
      Listener(offset, saved, started)
    }

    constructor (saved: Option<nat>, newest: Option<nat>)
      ensures State() == Listener(FirstOffset(saved, newest), saved, [])
    {
      offset := if saved.Some? then saved.value else if newest.Some? then newest.value + 1 else 0;
      this.saved, started := saved, [];
    }

    /** One iteration of the endless loop; `None` is a failed poll, after which it sleeps and continues. */
    method Iterate(answer: Option<seq<nat>>)
      modifies this
      ensures State() == if answer.Some? then AllHandled(old(State()), answer.value) else old(State())
    {
      if answer == None {
        return;
      }
      var updates := answer.value;
      for i := 0 to |updates|
        invariant State() == AllHandled(old(State()), updates[..i])
      {
        assert updates[..i + 1][..i] == updates[..i];
        offset := Max(offset, updates[i] + 1);
        HandleUpdate(updates[i], offset);
      }
      assert updates[..|updates|] == updates;
    }

    /** `handle_update` up to the end of its first statement. */
    method HandleUpdate(upd: nat, offset: nat)
      modifies this
      ensures saved == Some(offset) && started == old(started) + [upd] && this.offset == old(this.offset)
    {
      saved := Some(offset);
      started := started + [upd];
    }
  }

  // ------------------------------------------------ the system

  /** `batch` is what the running iteration still has to handle; `base` is where the first start began. */
  datatype State = State(
    arrived: seq<nat>,      // all updates so far, oldest first
    next: nat,              // the server numbers further updates from here on
    forgotten: nat,         // the server has dropped everything below
    l: Listener,
    batch: seq<nat>,
    base: nat)

  datatype Step =
    | Arrive(upd: nat)
    | Poll(n: nat)          // an answer of `n` updates
    | PollError
    | Handle
    | Restart

  ghost predicate Increasing(ids: seq<nat>)
  {
    forall i, j | 0 <= i < j < |ids| :: ids[i] < ids[j]
  }

  ghost predicate Numbered(ids: seq<nat>, next: nat)
  {
    forall i | 0 <= i < |ids| :: ids[i] < next
  }

  /** How many updates are older than `offset`. */
  function Below(arrived: seq<nat>, offset: nat): (n: nat)
    ensures n <= |arrived|
    ensures n > 0 ==> arrived[n - 1] < offset
    ensures forall i | n <= i < |arrived| :: arrived[i] >= offset
  {
    if arrived == [] then 0
    else if arrived[|arrived| - 1] < offset then |arrived|
    else Below(arrived[..|arrived| - 1], offset)
  }

  /** What the server can return for `offset`. */
  function Pending(s: State, offset: nat): seq<nat>
  {
    s.arrived[Below(s.arrived, Max(offset, s.forgotten))..]
  }

  function Newest(s: State): Option<nat>
  {
    var pending := Pending(s, 0);
    if pending == [] then None else Some(pending[|pending| - 1])
  }

  predicate Enabled(s: State, step: Step)
  {
    match step
    case Arrive(upd) => upd >= s.next
    case Poll(n) => s.batch == [] && n <= |Pending(s, s.l.offset)|
    case PollError => s.batch == []
    case Handle => s.batch != []
    case Restart => true
  }

  function Next(s: State, step: Step): State
    requires Enabled(s, step)
  {
    match step
    case Arrive(upd) => s.(arrived := s.arrived + [upd], next := upd + 1)
    case Poll(n) => s.(batch := Pending(s, s.l.offset)[..n], forgotten := Max(s.forgotten, s.l.offset))
    case PollError => s
    case Handle => s.(l := Handled(s.l, s.batch[0]), batch := s.batch[1..])
    case Restart => Restarted(s)
  }

  /**
   Memory is lost. With a saved offset listening resumes there; without one the backlog is
   skipped (asking for the newest update makes the server drop the older ones), so the run
   counts from the new beginning.
   */
  function Restarted(s: State): State
  {
    var newest := Newest(s);
    var offset := FirstOffset(s.l.saved, newest);
    var dropped := if s.l.saved == None && newest.Some? then Max(s.forgotten, newest.value) else s.forgotten;
    s.(l := s.l.(offset := offset), batch := [], forgotten := dropped,
       base := if s.l.saved.Some? then s.base else Max(offset, dropped))
  }

  /** The first start, on any server history; a saved offset is one the server has numbered up to. */
  ghost predicate IsStart(s: State)
  {
    && Increasing(s.arrived) && Numbered(s.arrived, s.next)
    && s.forgotten <= s.next
    && s.l.started == [] && s.batch == []
    && s.l.offset == FirstOffset(s.l.saved, Newest(s))
    && s.base == Max(s.l.offset, s.forgotten)
    && (s.l.saved.Some? ==> s.forgotten <= s.l.saved.value <= s.next)
  }

  // ------------------------------------------------ counting in the history

  /** A new update is newer than any offset in use. */
  lemma {:induction false} BelowAppend(arrived: seq<nat>, upd: nat, offset: nat)
    requires upd >= offset
    ensures Below(arrived + [upd], offset) == Below(arrived, offset)
  {
    assert (arrived + [upd])[..|arrived|] == arrived;
  }

  lemma {:induction false} IncreasingAppend(arrived: seq<nat>, upd: nat, next: nat)
    requires Increasing(arrived) && Numbered(arrived, next) && upd >= next
    ensures Increasing(arrived + [upd]) && Numbered(arrived + [upd], upd + 1)
  {
  }

  lemma {:induction false} SliceShift<T>(a: seq<T>, from: nat, at: nat, end: nat)
    requires from <= at < end <= |a|
    ensures a[from..at + 1] == a[from..at] + [a[at]]
    ensures a[at..end][1..] == a[at + 1..end] && a[at..end][0] == a[at]
  {
  }

  // ------------------------------------------------ what every run keeps

  /** How far the run has come: up to the offset, or to where it began when that is later. */
  function Reached(s: State): nat
  {
    Max(s.l.offset, s.base)
  }

  /**
   The updates started are exactly those from `base` up to the offset reached, the offset is
   the saved one, the batch comes next, and the server still has everything from there on.
   */
  ghost predicate Inv(s: State)
  {
    && Increasing(s.arrived) && Numbered(s.arrived, s.next)
    && Reached(s) <= s.next
    && (if s.l.saved.Some? then s.l.saved.value == s.l.offset && s.base <= s.l.offset
        else s.l.started == [] && s.l.offset <= s.base)
    && s.forgotten <= Reached(s)
    && (s.l.offset < s.base ==> s.forgotten == s.base)
    && InvAt(s, Below(s.arrived, s.base), Below(s.arrived, Reached(s)))
  }

  predicate InvAt(s: State, from: nat, at: nat)
  {
    && from <= at && at + |s.batch| <= |s.arrived|
    && s.batch == s.arrived[at..at + |s.batch|]
    && s.l.started == s.arrived[from..at]
  }

  lemma {:induction false} StartInv(s: State)
    requires IsStart(s)
    ensures Inv(s)
  {
    hide Below;
    if s.l.saved == None && Newest(s).Some? {
      assert s.l.offset <= s.next;
    }
  }

  /** A first start without a saved offset skips what has arrived before: nothing of it is pending any more. */
  lemma {:induction false} BacklogIsSkipped(s: State)
    requires IsStart(s) && s.l.saved == None
    ensures forall upd | upd in s.arrived :: upd < s.base
    ensures Below(s.arrived, s.base) == |s.arrived|
  {
    if s.arrived != [] {
      var last := s.arrived[|s.arrived| - 1];
      if Newest(s) == None {
        assert Below(s.arrived, Max(0, s.forgotten)) == |s.arrived|;
      } else {
        assert Newest(s).value == last;
      }
      forall upd | upd in s.arrived
        ensures upd <= last < s.base
      {
        var i :| 0 <= i < |s.arrived| && s.arrived[i] == upd;
        assert i < |s.arrived| - 1 ==> s.arrived[i] < last;
      }
    }
  }

  lemma {:induction false} ArriveKeeps(s: State, upd: nat)
    requires Inv(s) && upd >= s.next
    ensures Inv(Next(s, Arrive(upd)))
  {
    hide Below;
    hide Increasing;
    IncreasingAppend(s.arrived, upd, s.next);
    BelowAppend(s.arrived, upd, Reached(s));
    BelowAppend(s.arrived, upd, s.base);
    var from, at := Below(s.arrived, s.base), Below(s.arrived, Reached(s));
  }

  /** The first update of the batch is the next one in the history. */
  lemma {:induction false} HandleMovesOn(s: State, from: nat, at: nat)
    requires InvAt(s, from, at) && s.batch != []
    ensures at < |s.arrived| && s.arrived[at] == s.batch[0]
    ensures InvAt(Next(s, Handle), from, at + 1)
  {
    SliceShift(s.arrived, from, at, at + |s.batch|);
  }

  lemma {:induction false} HandleOffset(s: State)
    requires s.batch != [] && s.batch[0] >= Reached(s)
    ensures var s' := Next(s, Handle);
            && s'.l.offset == s.batch[0] + 1 && s'.l.saved == Some(s'.l.offset)
            && s'.base == s.base && s'.base <= s'.l.offset && Reached(s') == s.batch[0] + 1
            && s'.arrived == s.arrived && s'.next == s.next && s'.forgotten == s.forgotten
  {
  }

  lemma {:induction false} HandleKeeps(s: State)
    requires Inv(s) && s.batch != []
    ensures Inv(Next(s, Handle))
  {
    hide Below;
    hide Increasing;
    hide InvAt;
    hide Numbered;
    hide Next;
    hide Handled;
    var from, at := Below(s.arrived, s.base), Below(s.arrived, Reached(s));
    HandleMovesOn(s, from, at);
    HandleOffset(s);
    AfterHandled(s.arrived, s.batch[0], at);
    NumberedAt(s.arrived, s.next, at);
    hide Reached;
  }

  lemma {:induction false} NumberedAt(ids: seq<nat>, next: nat, i: nat)
    requires Numbered(ids, next) && i < |ids|
    ensures ids[i] < next
  {
  }

  lemma {:induction false} AfterHandled(arrived: seq<nat>, upd: nat, at: nat)
    requires Increasing(arrived) && at < |arrived| && arrived[at] == upd
    ensures Below(arrived, upd + 1) == at + 1
  {
    if at + 1 < |arrived| {
      assert arrived[at] < arrived[at + 1];
    }
  }

  lemma {:induction false} PollKeeps(s: State, n: nat)
    requires Inv(s) && Enabled(s, Poll(n))
    ensures Inv(Next(s, Poll(n)))
  {
    hide Below;
    hide Increasing;
    assert Max(s.l.offset, s.forgotten) == Reached(s);
    var at := Below(s.arrived, Reached(s));
    assert s.arrived[at..][..n] == s.arrived[at..at + n];
  }

  /** A restart from a saved offset only loses the batch, which the server still has. */
  lemma {:induction false} ResumeKeeps(s: State)
    requires Inv(s) && s.l.saved.Some?
    ensures Inv(Restarted(s))
  {
    hide Below;
    hide Newest;
    hide Increasing;
    assert Restarted(s) == s.(batch := []);
  }

  lemma {:induction false} NewestIsNumbered(s: State)
    requires Numbered(s.arrived, s.next) && Newest(s).Some?
    ensures Newest(s).value < s.next
  {
    hide Below;
  }

  /** Without a saved offset a restart begins a new count, at a place the server still has. */
  lemma {:induction false} FreshStart(s: State)
    requires s.l.saved == None && Numbered(s.arrived, s.next) && s.forgotten <= s.next
    ensures var s' := Restarted(s);
            && Reached(s') == s'.base <= s.next && s'.l.offset <= s'.base
            && s'.forgotten <= s'.base && (s'.l.offset < s'.base ==> s'.forgotten == s'.base)
  {
    if Newest(s).Some? {
      NewestIsNumbered(s);
    }
    hide Newest;
    hide Numbered;
  }

  lemma {:induction false} FreshStartKeeps(s: State)
    requires Inv(s) && s.l.saved == None
    ensures Inv(Restarted(s))
  {
    hide Below;
    hide Newest;
    hide Increasing;
    hide Numbered;
    hide Restarted;
    FreshStart(s);
    FreshFields(s);
    NothingStarted(Restarted(s), Below(s.arrived, Restarted(s).base));
    hide InvAt;
    hide Max;
  }

  lemma {:induction false} FreshFields(s: State)
    requires s.l.saved == None && s.l.started == []
    ensures var s' := Restarted(s);
            s'.arrived == s.arrived && s'.next == s.next && s'.l.saved == None && s'.l.started == [] && s'.batch == []
  {
    hide Newest;
  }

  lemma {:induction false} NothingStarted(s: State, at: nat)
    requires s.l.started == [] && s.batch == [] && at <= |s.arrived|
    ensures InvAt(s, at, at)
  {
  }

  lemma {:induction false} RestartKeeps(s: State)
    requires Inv(s)
    ensures Inv(Next(s, Restart))
  {
    hide Inv;
    if s.l.saved.Some? {
      ResumeKeeps(s);
    } else {
      FreshStartKeeps(s);
    }
  }

  lemma {:induction false} StepKeepsInv(s: State, step: Step)
    requires Inv(s) && Enabled(s, step)
    ensures Inv(Next(s, step))
  {
    hide Inv;
    hide Next;
    match step
    case Arrive(upd) => ArriveKeeps(s, upd);
    case Poll(n) => PollKeeps(s, n);
    case PollError => PollErrorKeeps(s);
    case Handle => HandleKeeps(s);
    case Restart => RestartKeeps(s);
  }

  lemma {:induction false} PollErrorKeeps(s: State)
    requires Inv(s) && Enabled(s, PollError)
    ensures Inv(Next(s, PollError))
  {
    hide Inv;
  }

  ghost predicate IsRun(states: seq<State>, steps: seq<Step>)
  {
    && |states| == |steps| + 1 && IsStart(states[0])
    && forall i | 0 <= i < |steps| :: Enabled(states[i], steps[i]) && states[i + 1] == Next(states[i], steps[i])
  }

  lemma {:induction false} InvOverRuns(states: seq<State>, steps: seq<Step>, n: nat)
    requires IsRun(states, steps) && n <= |steps|
    ensures Inv(states[n])
  {
    hide Inv;
    hide Next;
    hide Enabled;
    if n == 0 {
      StartInv(states[0]);
    } else {
      InvOverRuns(states, steps, n - 1);
      StepKeepsInv(states[n - 1], steps[n - 1]);
    }
  }

  /**
   Exactly once, in order: after any run of arrivals, polls, failed polls, handled updates
   (whether or not the handler raises) and restarts, the updates started so far are exactly
   the arrived ones from the beginning of the run up to the offset, oldest first, and every
   later one is still there to be polled.
   */
  lemma {:induction false} StartedExactlyOnce(states: seq<State>, steps: seq<Step>)
    requires IsRun(states, steps)
    ensures var s := states[|steps|];
            && Increasing(s.l.started)
            && (forall upd: nat :: upd in s.l.started <==> upd in s.arrived && s.base <= upd < Reached(s))
            && (forall upd | upd in s.arrived && upd >= Reached(s) :: upd in Pending(s, s.l.offset))
  {
    hide Inv;
    hide Increasing;
    hide Next;
    hide Enabled;
    hide Reached;
    InvOverRuns(states, steps, |steps|);
    InvMeansExactlyOnce(states[|steps|]);
  }

  lemma {:induction false} InvMeansExactlyOnce(s: State)
    requires Inv(s)
    ensures Increasing(s.l.started)
    ensures forall upd: nat :: upd in s.l.started <==> upd in s.arrived && s.base <= upd < Reached(s)
    ensures forall upd | upd in s.arrived && upd >= Reached(s) :: upd in Pending(s, s.l.offset)
  {
    hide Below;
    SliceIncreasing(s.arrived, Below(s.arrived, s.base), Below(s.arrived, Reached(s)));
    hide Increasing;
    forall upd: nat
      ensures upd in s.l.started <==> upd in s.arrived && s.base <= upd < Reached(s)
    {
    }
    assert Max(s.l.offset, s.forgotten) == Reached(s);
    forall upd | upd in s.arrived && upd >= Reached(s)
      ensures upd in Pending(s, s.l.offset)
    {
    }
  }

  lemma {:induction false} SliceIncreasing(ids: seq<nat>, i: nat, j: nat)
    requires Increasing(ids) && i <= j <= |ids|
    ensures Increasing(ids[i..j])
  {
  }

  /** A run that began from a saved offset never skips anything: it still counts from there. */
  lemma {:induction false} SavedOffsetFixesBase(states: seq<State>, steps: seq<Step>, n: nat)
    requires IsRun(states, steps) && n <= |steps| && states[0].l.saved.Some?
    ensures states[n].base == states[0].l.saved.value && states[n].l.saved.Some?
  {
    if n > 0 {
      SavedOffsetFixesBase(states, steps, n - 1);
    }
  }

  // ------------------------------------------------ the loop takes these steps

  /** The state after handling the first `n` updates of the batch. */
  function HandledSteps(s: State, n: nat): State
    requires n <= |s.batch|
  {
    if n == 0 then s else HandledOne(HandledSteps(s, n - 1))
  }

  function HandledOne(s: State): State
  {
    if s.batch == [] then s else Next(s, Handle)
  }

  /** One iteration of `listen` is a poll followed by one step for each update it returned. */
  lemma {:induction false} IterationIsSteps(s: State, n: nat)
    requires n <= |s.batch|
    ensures HandledSteps(s, n) == s.(l := AllHandled(s.l, s.batch[..n]), batch := s.batch[n..])
  {
    if n > 0 {
      IterationIsSteps(s, n - 1);
      assert s.batch[..n][..n - 1] == s.batch[..n - 1];
      assert s.batch[n - 1..][1..] == s.batch[n..];
    }
  }
}
