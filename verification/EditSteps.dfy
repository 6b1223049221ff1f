/**
 The replacement of a copy that could not be edited (bridge/transfer/sync_edit.py) as steps
 of the deletion protocol: what EditSync's code does to rows, messages and echo sets is what
 the protocol's steps do, so the protocol's theorems speak of it.
 */
module EditSteps {
  import opened Sequences
  import opened Messages
  import opened MessageMap
  import opened DeleteProtocol
  import EditSync
  import DeleteSync
  import MirrorProtocol

  /** Both see the same rows, messages and echo sets. */
  predicate Agree(s: EditSync.State, w: State)
  {
    s.rows == w.rows && s.ignore == w.ignore && s.live == w.live
  }

  function Creates(chat: string, next: nat, n: nat): (steps: seq<Step>)
    ensures |steps| == n
  {
    if n == 0 then [] else Creates(chat, next, n - 1) + [Create(Key(Bale, chat, next + n - 1))]
  }

  /** The new copies exist. */
  function WithNew(w: State, copies: set<Key>): State
  {
    w.(known := w.known + copies, live := w.live + copies)
  }

  lemma {:induction false} CreatedMore(chat: string, next: nat, n: nat)
    requires n > 0
    ensures EditSync.Created(chat, next, n) == EditSync.Created(chat, next, n - 1) + {Key(Bale, chat, next + n - 1)}
    ensures Key(Bale, chat, next + n - 1) !in EditSync.Created(chat, next, n - 1)
  {
  }

  lemma {:induction false} NewMessage(w: State, copies: set<Key>, k: Key, selfBot: bool)
    requires k !in w.known && k !in copies
    ensures var t := WithNew(w, copies);
            Enabled(t, Create(k)) && Next(t, Create(k), selfBot) == WithNew(w, copies + {k})
  {
    assert w.known + (copies + {k}) == (w.known + copies) + {k};
    assert w.live + (copies + {k}) == (w.live + copies) + {k};
  }

  lemma {:induction false} SendTakesSteps(w: State, chat: string, next: nat, n: nat, selfBot: bool)
    requires EditSync.Created(chat, next, n) !! w.known
    ensures DeleteSync.After(w, Creates(chat, next, n), selfBot) == Some(WithNew(w, EditSync.Created(chat, next, n)))
  {
    if n == 0 {
      assert EditSync.Created(chat, next, 0) == {};
      assert WithNew(w, {}) == w;
    } else {
      CreatedMore(chat, next, n);
      hide EditSync.Created;
      hide DeleteSync.After;
      SendTakesSteps(w, chat, next, n - 1, selfBot);
      var k := Key(Bale, chat, next + n - 1);
      var t := WithNew(w, EditSync.Created(chat, next, n - 1));
      NewMessage(w, EditSync.Created(chat, next, n - 1), k, selfBot);
      LastStep(w, Creates(chat, next, n - 1), Create(k), t, selfBot);
    }
  }

  lemma {:induction false} LastStep(w: State, steps: seq<Step>, step: Step, t: State, selfBot: bool)
    requires DeleteSync.After(w, steps, selfBot) == Some(t) && Enabled(t, step)
    ensures DeleteSync.After(w, steps + [step], selfBot) == Some(Next(t, step, selfBot))
  {
    hide Next;
    hide Enabled;
    assert (steps + [step])[..|steps|] == steps;
  }

  /** The protocol's state once the echo is suppressed and `n` messages were sent. */
  function Resent(w: State, chat: string, next: nat, n: nat): State
    requires w.tgWorker.Editing?
  {
    WithNew(w.(ignore := w.ignore + {w.tgWorker.hit.end}, tgWorker := w.tgWorker.(phase := Suppressed)),
            EditSync.Created(chat, next, n))
  }

  lemma {:induction false} ResentTakesSteps(w: State, chat: string, next: nat, n: nat, selfBot: bool)
    requires w.tgWorker.Editing? && w.tgWorker.phase == Looked && EditSync.Created(chat, next, n) !! w.known
    ensures DeleteSync.After(w, [Suppress] + Creates(chat, next, n), selfBot) == Some(Resent(w, chat, next, n))
  {
    var t := Next(w, Suppress, selfBot);
    assert DeleteSync.After(w, [], selfBot) == Some(w) && [] + [Suppress] == [Suppress];
    LastStep(w, [], Suppress, w, selfBot);
    SendTakesSteps(t, chat, next, n, selfBot);
    hide DeleteSync.After;
    DeleteSync.AfterConcat(w, [Suppress], Creates(chat, next, n), selfBot);
  }

  lemma {:induction false} GivenUp(s: EditSync.State, w: State, chat: string, resend: EditSync.Resend, selfBot: bool)
    requires Agree(s, w) && w.tgWorker.Editing? && (resend.Broken? || resend.sent == 0)
    ensures var t := Resent(w, chat, s.next, resend.sent);
            && Enabled(t, Withdraw) && Next(t, Withdraw, selfBot).tgWorker.Idle?
            && Agree(EditSync.Replaced(s, w.tgWorker.hit, chat, resend), Next(t, Withdraw, selfBot))
  {
    hide EditSync.Created;
  }

  /** The old copy is asked for, goes if it is there and can be deleted, and the row is redirected. */
  function Swap(live: set<Key>, hit: Hit, copy: Key, deleted: bool): seq<Step>
  {
    [AskOld] + (if deleted && hit.end in live then [OldGone] else []) + [Redirect(copy)]
  }

  lemma {:induction false} AskFields(t: State, selfBot: bool)
    requires t.tgWorker.Editing? && t.tgWorker.phase == Suppressed
    ensures Enabled(t, AskOld)
    ensures var a, hit := Next(t, AskOld, selfBot), t.tgWorker.hit;
            && a.tgWorker == Editing(hit, Deleting(false)) && a.known == t.known && a.used == t.used
            && a.rows == t.rows && a.ignore == t.ignore && a.live == t.live
  {
  }

  lemma {:induction false} GoneFields(a: State, selfBot: bool)
    requires a.tgWorker.Editing? && a.tgWorker.phase == Deleting(false) && a.tgWorker.hit.end in a.live
    ensures Enabled(a, OldGone)
    ensures var g, hit := Next(a, OldGone, selfBot), a.tgWorker.hit;
            && g.tgWorker == Editing(hit, Deleting(true)) && g.known == a.known && g.used == a.used
            && g.rows == a.rows && g.ignore == a.ignore && g.live == a.live - {hit.end}
  {
  }

  lemma {:induction false} RedirectFields(a: State, copy: Key, selfBot: bool)
    requires a.tgWorker.Editing? && a.tgWorker.phase.Deleting?
    requires copy in a.known && copy !in a.used && copy.platform == Bale
    ensures Enabled(a, Redirect(copy))
    ensures var u := Next(a, Redirect(copy), selfBot);
            && u.tgWorker.Idle? && u.rows == Redirected(a.rows, a.tgWorker.hit.row, copy)
            && u.ignore == a.ignore && u.live == a.live
  {
    hide Redirected;
  }

  lemma {:induction false} SwapTakesSteps(t: State, copy: Key, deleted: bool, selfBot: bool)
    requires t.tgWorker.Editing? && t.tgWorker.phase == Suppressed
    requires copy in t.known && copy !in t.used && copy.platform == Bale
    ensures var hit := t.tgWorker.hit;
            var u := DeleteSync.After(t, Swap(t.live, hit, copy, deleted), selfBot);
            && u.Some? && u.value.tgWorker.Idle? && u.value.rows == Redirected(t.rows, hit.row, copy)
            && u.value.ignore == t.ignore && u.value.live == if deleted then t.live - {hit.end} else t.live
  {
    assert DeleteSync.After(t, [], selfBot) == Some(t) && [] + [AskOld] == [AskOld];
    hide Redirected;
    hide Next;
    hide Enabled;
    hide DeleteSync.After;
    AskFields(t, selfBot);
    var a := Next(t, AskOld, selfBot);
    LastStep(t, [], AskOld, t, selfBot);
    if deleted && t.tgWorker.hit.end in t.live {
      GoneFields(a, selfBot);
      LastStep(t, [AskOld], OldGone, a, selfBot);
      var g := Next(a, OldGone, selfBot);
      RedirectFields(g, copy, selfBot);
      LastStep(t, [AskOld] + [OldGone], Redirect(copy), g, selfBot);
    } else {
      RedirectFields(a, copy, selfBot);
      LastStep(t, [AskOld], Redirect(copy), a, selfBot);
      assert [AskOld] + [] == [AskOld];
    }
  }

  /**
   Whatever comes of it, a replacement takes protocol steps only, and leaves rows, messages
   and echo sets as EditSync says.
   */
  lemma {:induction false} ReplacementTakesSteps(
      s: EditSync.State, w: State, chat: string, resend: EditSync.Resend, selfBot: bool) returns (steps: seq<Step>)
    requires Agree(s, w) && w.tgWorker.Editing? && w.tgWorker.phase == Looked
    requires EditSync.Created(chat, s.next, resend.sent) !! w.known && w.used <= w.known
    requires w.tgWorker.hit.end in w.known && w.tgWorker.hit.end.chat == chat
    ensures var t := DeleteSync.After(w, steps, selfBot);
            && t.Some? && t.value.tgWorker.Idle?
            && Agree(EditSync.Replaced(s, w.tgWorker.hit, chat, resend), t.value)
  {
    var hit, n := w.tgWorker.hit, resend.sent;
    var t := Resent(w, chat, s.next, n);
    var sent := [Suppress] + Creates(chat, s.next, n);
    ResentTakesSteps(w, chat, s.next, n, selfBot);
    if resend.Broken? || n == 0 {
      GivenUp(s, w, chat, resend, selfBot);
      LastStep(w, sent, Withdraw, t, selfBot);
      steps := sent + [Withdraw];
    } else {
      var copy := Key(Bale, hit.end.chat, s.next);
      assert copy in EditSync.Created(chat, s.next, n);
      hide DeleteSync.After;
      hide EditSync.Created;
      SwapTakesSteps(t, copy, resend.deleted, selfBot);
      DeleteSync.AfterConcat(w, sent, Swap(t.live, hit, copy, resend.deleted), selfBot);
      steps := sent + Swap(t.live, hit, copy, resend.deleted);
    }
  }

  // ------------------------------------------------ the mark of a replacement

  /** The state some steps of the mirroring protocol lead to. */
  function Mirrored(
      s: MirrorProtocol.State, steps: seq<MirrorProtocol.Step>, limits: MirrorProtocol.Limits
  ): Option<MirrorProtocol.State>
  {
    if steps == [] then Some(s)
    else
      match Mirrored(s, steps[..|steps| - 1], limits)
      case None => None
      case Some(t) =>
        if MirrorProtocol.Enabled(t, steps[|steps| - 1], limits)
        then Some(MirrorProtocol.Next(t, steps[|steps| - 1], limits)) else None
  }

  lemma {:induction false} MirroredOn(
      s: MirrorProtocol.State, steps: seq<MirrorProtocol.Step>, step: MirrorProtocol.Step, t: MirrorProtocol.State,
      limits: MirrorProtocol.Limits)
    requires Mirrored(s, steps, limits) == Some(t) && MirrorProtocol.Enabled(t, step, limits)
    ensures Mirrored(s, steps + [step], limits) == Some(MirrorProtocol.Next(t, step, limits))
  {
    hide MirrorProtocol.Next;
    hide MirrorProtocol.Enabled;
    assert (steps + [step])[..|steps|] == steps;
  }

  /** The worker has sent `sent` messages again, from id `s.next` on, and has `left` to send. */
  predicate Resending(s: MirrorProtocol.State, t: MirrorProtocol.State, chat: string, sent: nat, left: nat)
  {
    && t.b == s.b && t.recorded == s.recorded && t.next == s.next + sent
    && t.tgWorker.Busy? && t.tgWorker.legs == [MirrorProtocol.Leg(chat, left)] && |t.tgWorker.made| == sent
    && forall i | 0 <= i < sent ::
         t.tgWorker.made[i] == Key(Bale, chat, s.next + i) && t.tgWorker.made[i] in t.bridgeMade
  }

  lemma {:induction false} ResendsOne(
      s: MirrorProtocol.State, t: MirrorProtocol.State, chat: string, sent: nat, left: nat,
      limits: MirrorProtocol.Limits)
    requires Resending(s, t, chat, sent, left) && left > 0
    ensures MirrorProtocol.Enabled(t, MirrorProtocol.Send(Tg), limits)
    ensures Resending(s, MirrorProtocol.Next(t, MirrorProtocol.Send(Tg), limits), chat, sent + 1, left - 1)
  {
    assert t.tgWorker.legs[0 := MirrorProtocol.Leg(chat, left - 1)] == [MirrorProtocol.Leg(chat, left - 1)];
  }

  lemma {:induction false} Resends(
      s: MirrorProtocol.State, chat: string, n: nat, sent: nat, limits: MirrorProtocol.Limits)
      returns (steps: seq<MirrorProtocol.Step>, t: MirrorProtocol.State)
    requires s.tgWorker.Idle? && !s.b.paused && n <= limits.copies && sent <= n
    ensures Mirrored(s, steps, limits) == Some(t) && Resending(s, t, chat, sent, n - sent)
  {
    hide Mirrored;
    hide Resending;
    hide MirrorProtocol.Next;
    hide MirrorProtocol.Enabled;
    if sent == 0 {
      steps, t := ResendBegins(s, chat, n, limits);
    } else {
      steps, t := Resends(s, chat, n, sent - 1, limits);
      ResendsOne(s, t, chat, sent - 1, n - sent + 1, limits);
      MirroredOn(s, steps, MirrorProtocol.Send(Tg), t, limits);
      steps := steps + [MirrorProtocol.Send(Tg)];
      t := MirrorProtocol.Next(t, MirrorProtocol.Send(Tg), limits);
    }
  }

  lemma {:induction false} ResendBegins(s: MirrorProtocol.State, chat: string, n: nat, limits: MirrorProtocol.Limits)
      returns (steps: seq<MirrorProtocol.Step>, t: MirrorProtocol.State)
    requires s.tgWorker.Idle? && !s.b.paused && n <= limits.copies
    ensures Mirrored(s, steps, limits) == Some(t) && Resending(s, t, chat, 0, n)
  {
    var step := MirrorProtocol.Replace(Tg, MirrorProtocol.Leg(chat, n));
    assert Mirrored(s, [], limits) == Some(s) && [] + [step] == [step];
    MirroredOn(s, [], step, s, limits);
    steps, t := [step], MirrorProtocol.Next(s, step, limits);
  }

  lemma {:induction false} FirstIsRecorded(
      s: MirrorProtocol.State, t: MirrorProtocol.State, chat: string, n: nat, limits: MirrorProtocol.Limits)
    requires Resending(s, t, chat, n, 0) && n > 0
    ensures var copy := Key(Bale, chat, s.next);
            var step := MirrorProtocol.Record(Tg, multiset{copy});
            && MirrorProtocol.Enabled(t, step, limits)
            && var u := MirrorProtocol.Next(t, step, limits);
               && u.b == s.b.(tokens := s.b.tokens + multiset{copy}) && u.recorded == s.recorded + {copy}
               && u.next == s.next + n && u.tgWorker.Idle? && copy in u.bridgeMade
  {
    var copy, made := Key(Bale, chat, s.next), t.tgWorker.made;
    assert made[0] == copy && made == [copy] + made[1..];
    assert multiset(made) == multiset{copy} + multiset(made[1..]);
    assert t.tgWorker.legs[1..] == [];
    var kept := multiset{copy};
    assert (set k | k in kept) == {copy};
  }

  /**
   The ledger mark of a replacement is the protocol's record: the protocol can take up the
   replacement, send its messages and record the first, and that is the message EditSync marks.
   */
  lemma {:induction false} MarkIsRecorded(
      e: EditSync.State, s: MirrorProtocol.State, hit: Hit, n: nat, deleted: bool, limits: MirrorProtocol.Limits)
      returns (steps: seq<MirrorProtocol.Step>)
    requires e.next == s.next && s.tgWorker.Idle? && !s.b.paused && 0 < n <= limits.copies
    ensures var copy, t := Key(Bale, hit.end.chat, s.next), Mirrored(s, steps, limits);
            && EditSync.Replaced(e, hit, hit.end.chat, EditSync.Sent(n, deleted)).marked == e.marked + [copy]
            && t.Some? && t.value.tgWorker.Idle? && t.value.next == s.next + n && copy in t.value.bridgeMade
            && t.value.b == s.b.(tokens := s.b.tokens + multiset{copy})
            && t.value.recorded == s.recorded + {copy}
  {
    hide Mirrored;
    hide Resending;
    hide MirrorProtocol.Next;
    hide MirrorProtocol.Enabled;
    var t;
    steps, t := Resends(s, hit.end.chat, n, n, limits);
    FirstIsRecorded(s, t, hit.end.chat, n, limits);
    var step := MirrorProtocol.Record(Tg, multiset{Key(Bale, hit.end.chat, s.next)});
    MirroredOn(s, steps, step, t, limits);
    steps := steps + [step];
  }
}
