/**
 The login limiter of the dashboard (bridge/dashboard/auth.py): after `MAX_FAILS` failed
 logins an address is locked for `LOCK_SECONDS`. The login handler (api.py) checks the
 lock, waits for the request body, then verifies and registers a failure, so requests of
 one address may overlap between the check and the registration.
 */
module LoginLimiter {

  const MAX_FAILS := 5
  const LOCK_SECONDS := 60.0

  /** `[count, lock_until]` */
  datatype Entry = Entry(count: nat, until: real)

  const Clean := Entry(0, 0.0)

  predicate Locked(e: Entry, now: real)
  {
    e.count >= MAX_FAILS && now < e.until
  }

  function Registered(e: Entry, now: real): Entry
  {
    if e.count + 1 >= MAX_FAILS then Entry(MAX_FAILS, now + LOCK_SECONDS) else Entry(e.count + 1, e.until)
  }

  class AuthEngine {
    var fails: map<string, Entry>

    function EntryOf(ip: string): Entry
      reads this
    {
      if ip in fails then fails[ip] else Clean
    }

    constructor ()
      ensures fails == map[]
    {
      fails := map[];
    }

    method CheckLock(ip: string, now: real) returns (locked: bool)
      ensures locked == Locked(EntryOf(ip), now)
    {
      var e := if ip in fails then fails[ip] else Clean;
      locked := e.count >= MAX_FAILS && now < e.until;
    }

    method RegisterFail(ip: string, now: real)
      modifies this
      ensures EntryOf(ip) == Registered(old(EntryOf(ip)), now)
      ensures forall other | other != ip :: EntryOf(other) == old(EntryOf(other))
    {
      var e := if ip in fails then fails[ip] else Clean;
      if e.count + 1 >= MAX_FAILS {
        fails := fails[ip := Entry(MAX_FAILS, now + LOCK_SECONDS)];
      } else {
        fails := fails[ip := Entry(e.count + 1, e.until)];
      }
    }

    method ResetFails(ip: string)
      modifies this
      ensures EntryOf(ip) == Clean
      ensures forall other | other != ip :: EntryOf(other) == old(EntryOf(other))
    {
      fails := fails - {ip};
    }
  }

  // ------------------------------------------------ the requests of one address

  /** A request checks the lock; later its verification fails. `check` is the event number of its check. */
  datatype Event = Check(now: real) | Fail(check: nat, now: real)

  /** The address's entry after the events. */
  function After(events: seq<Event>): Entry
  {
    if events == [] then Clean
    else
      var e := After(events[..|events| - 1]);
      if events[|events| - 1].Fail? then Registered(e, events[|events| - 1].now) else e
  }

  function Fails(events: seq<Event>): nat
  {
    if events == [] then 0 else Fails(events[..|events| - 1]) + (if events[|events| - 1].Fail? then 1 else 0)
  }

  /** The failure `i` was registered although another one had been since its check. */
  predicate Late(events: seq<Event>, i: nat)
    requires i < |events|
  {
    events[i].Fail? && exists k :: events[i].check < k < i && events[k].Fail?
  }

  function LateFails(events: seq<Event>): nat
  {
    if events == [] then 0
    else LateFails(events[..|events| - 1]) + (if Late(events, |events| - 1) then 1 else 0)
  }

  /** Each failure had passed its check, and the clock does not run backwards. */
  ghost predicate IsRun(events: seq<Event>)
  {
    && (forall i, j | 0 <= i < j < |events| :: events[i].now <= events[j].now)
    && (forall i | 0 <= i < |events| && events[i].Fail? ::
          && events[i].check < i && events[events[i].check].Check?
          && !Locked(After(events[..events[i].check]), events[events[i].check].now))
  }

  /** Event `i` is the fifth failure. */
  predicate IsFifth(events: seq<Event>, i: nat)
    requires i < |events|
  {
    events[i].Fail? && Fails(events[..i]) == MAX_FAILS - 1
  }

  /** When the last failure was. */
  function LastFail(events: seq<Event>): real
    requires Fails(events) > 0
  {
    var n := |events| - 1;
    if events[n].Fail? then events[n].now else LastFail(events[..n])
  }

  /**
   Who is locked out, exactly: the address is locked at a time if and only if it has failed
   five times and the last failure is less than the lock time ago. So a lock always ends.
   */
  lemma {:induction false} LockedExactly(events: seq<Event>, now: real)
    ensures Locked(After(events), now) <==> Fails(events) >= 5 && now < LastFail(events) + 60.0
  {
    LockStands(events);
  }

  lemma {:induction false} LockStands(events: seq<Event>)
    ensures After(events).count == if Fails(events) >= 5 then 5 else Fails(events)
    ensures Fails(events) >= 5 ==> After(events).until == LastFail(events) + 60.0
  {
    if events != [] {
      LockStands(events[..|events| - 1]);
    }
  }

  lemma {:induction false} PrefixStep(events: seq<Event>, n: nat)
    requires n < |events|
    ensures Fails(events[..n + 1]) == Fails(events[..n]) + (if events[n].Fail? then 1 else 0)
    ensures LateFails(events[..n + 1]) == LateFails(events[..n]) + (if Late(events, n) then 1 else 0)
    ensures After(events[..n + 1]) ==
            (if events[n].Fail? then Registered(After(events[..n]), events[n].now) else After(events[..n]))
  {
    assert events[..n + 1][..n] == events[..n];
    assert Late(events[..n + 1], n) <==> Late(events, n) by {
      forall k | 0 <= k <= n
        ensures events[..n + 1][k] == events[k]
      {
      }
    }
  }

  /** Nothing changes between a failure's check and its registration unless it is late. */
  lemma {:induction false} QuietSinceCheck(events: seq<Event>, i: nat, n: nat)
    requires i <= n <= |events| && forall k | i <= k < n :: events[k].Check?
    ensures After(events[..n]) == After(events[..i]) && Fails(events[..n]) == Fails(events[..i])
    decreases n
  {
    if i < n {
      hide After;
      hide Fails;
      hide LateFails;
      PrefixStep(events, n - 1);
      QuietSinceCheck(events, i, n - 1);
    }
  }

  lemma {:induction false} FailsGrow(events: seq<Event>, i: nat, n: nat)
    requires i <= n <= |events|
    ensures Fails(events[..i]) <= Fails(events[..n])
    decreases n
  {
    if i < n {
      hide Fails;
      PrefixStep(events, n - 1);
      FailsGrow(events, i, n - 1);
    }
  }

  lemma {:induction false} EntryCounts(events: seq<Event>)
    ensures After(events).count == (if Fails(events) < MAX_FAILS then Fails(events) else MAX_FAILS)
  {
    if events != [] {
      EntryCounts(events[..|events| - 1]);
    }
  }

  /** The late failures among the events after the fifth failure. */
  function LateSince(events: seq<Event>, fifth: nat, n: nat): int
    requires fifth < n <= |events|
  {
    LateFails(events[..n]) - LateFails(events[..fifth + 1])
  }

  /**
   What the first `n` events say from the fifth failure on: each further failure that is not
   late took a full lock.
   */
  ghost predicate Paced(events: seq<Event>, fifth: nat, n: nat)
    requires fifth < n <= |events|
  {
    && Fails(events[..n]) >= MAX_FAILS
    && exists last :: fifth <= last < n && events[last].Fail?
                      && After(events[..n]).until == events[last].now + LOCK_SECONDS
                      && events[fifth].now
                         + LOCK_SECONDS * (Fails(events[..n]) - MAX_FAILS - LateSince(events, fifth, n)) as real
                         <= events[last].now
  }

  lemma {:induction false} FifthIsPaced(events: seq<Event>, fifth: nat)
    requires IsRun(events) && fifth < |events| && IsFifth(events, fifth)
    ensures Paced(events, fifth, fifth + 1)
  {
    EntryCounts(events[..fifth]);
    PrefixStep(events, fifth);
  }

  lemma {:induction false} NextIsPaced(events: seq<Event>, fifth: nat, n: nat)
    requires IsRun(events) && fifth < n < |events| && Paced(events, fifth, n)
    ensures Paced(events, fifth, n + 1)
  {
    hide After;
    hide Fails;
    hide LateFails;
    PrefixStep(events, n);
    var last :| fifth <= last < n && events[last].Fail?
                && After(events[..n]).until == events[last].now + LOCK_SECONDS
                && events[fifth].now
                   + LOCK_SECONDS * (Fails(events[..n]) - MAX_FAILS - LateSince(events, fifth, n)) as real
                   <= events[last].now;
    EntryCounts(events[..n]);
    if events[n].Fail? {
      if !Late(events, n) {
        var check := events[n].check;
        assert forall k | check <= k < n :: events[k].Check?;
        QuietSinceCheck(events, check, n);
        assert events[check].now >= After(events[..n]).until;
      }
      assert events[last].now <= events[n].now;
    }
  }

  lemma {:induction false} AllPaced(events: seq<Event>, fifth: nat, n: nat)
    requires IsRun(events) && fifth < n <= |events| && IsFifth(events, fifth)
    ensures Paced(events, fifth, n)
    decreases n
  {
    hide Paced;
    hide IsRun;
    hide IsFifth;
    if n == fifth + 1 {
      FifthIsPaced(events, fifth);
    } else {
      AllPaced(events, fifth, n - 1);
      NextIsPaced(events, fifth, n - 1);
    }
  }

  /**
   The amortised bound, for every interleaving of the requests of an address that never
   logs in: up to the time of the last event the failures are at most five, plus one per
   lock period since the fifth, plus those after it let through because they overlapped.
   */
  lemma {:induction false} FailuresAreBounded(events: seq<Event>, fifth: nat)
    requires IsRun(events) && fifth < |events| && IsFifth(events, fifth)
    ensures Fails(events) <= MAX_FAILS + LateSince(events, fifth, |events|)
                             + ((events[|events| - 1].now - events[fifth].now) / LOCK_SECONDS).Floor
  {
    hide After;
    hide Fails;
    hide LateFails;
    AllPaced(events, fifth, |events|);
    assert events[..|events|] == events;
    var last :| fifth <= last < |events| && events[last].Fail?
                && After(events).until == events[last].now + LOCK_SECONDS
                && events[fifth].now
                   + LOCK_SECONDS * (Fails(events) - MAX_FAILS - LateSince(events, fifth, |events|)) as real
                   <= events[last].now;
    assert events[last].now <= events[|events| - 1].now;
  }

  /** No failure is late when every request is done before the next one starts. */
  ghost predicate OneAtATime(events: seq<Event>)
  {
    forall i | 0 <= i < |events| && events[i].Fail? :: events[i].check == i - 1
  }

  lemma {:induction false} NoLateFails(events: seq<Event>)
    requires OneAtATime(events)
    ensures LateFails(events) == 0
  {
    if events != [] {
      NoLateFails(events[..|events| - 1]);
    }
  }

  /** With requests one at a time: at most five failures plus one per minute since the fifth. */
  lemma {:induction false} AtomicFailuresAreBounded(events: seq<Event>, fifth: nat)
    requires IsRun(events) && OneAtATime(events) && fifth < |events| && IsFifth(events, fifth)
    ensures Fails(events) <= MAX_FAILS + ((events[|events| - 1].now - events[fifth].now) / LOCK_SECONDS).Floor
  {
    NoLateFails(events);
    assert events[..|events|] == events;
    FailuresAreBounded(events, fifth);
  }

  /** `n` checks followed by their failures, all at time zero. */
  function Burst(n: nat, m: nat): (events: seq<Event>)
    ensures |events| == n + m
    ensures forall i | 0 <= i < n :: events[i] == Check(0.0)
    ensures forall i | n <= i < n + m :: events[i] == Fail(i - n, 0.0)
  {
    seq(n + m, i => if i < n then Check(0.0) else Fail(i - n, 0.0))
  }

  lemma {:induction false} BurstPrefix(n: nat, m: nat, i: nat)
    requires i <= n
    ensures After(Burst(n, m)[..i]) == Clean
  {
    if i > 0 {
      assert Burst(n, m)[..i][..i - 1] == Burst(n, m)[..i - 1];
      BurstPrefix(n, m, i - 1);
    }
  }

  lemma {:induction false} BurstFails(n: nat, m: nat)
    ensures Fails(Burst(n, m)) == m
  {
    if m > 0 {
      assert Burst(n, m)[..n + m - 1] == Burst(n, m - 1);
      BurstFails(n, m - 1);
    } else if n > 0 {
      assert Burst(n, 0)[..n - 1] == Burst(n - 1, 0);
      BurstFails(n - 1, 0);
    }
  }

  /**
   Overlapping requests are what the limiter does not stop: any number of them that are
   all checked before the first fails are all verified, at one instant.
   */
  lemma {:induction false} OverlappingRequestsAllPass(n: nat)
    ensures IsRun(Burst(n, n)) && Fails(Burst(n, n)) == n
  {
    var events := Burst(n, n);
    BurstFails(n, n);
    forall i | 0 <= i < |events| && events[i].Fail?
      ensures !Locked(After(events[..events[i].check]), events[events[i].check].now)
    {
      BurstPrefix(n, n, events[i].check);
    }
  }
}
