/**
 The two checks of the Bale mirror on one job (bridge/transfer/mirror_b2t.py): the ledger
 first, then the fingerprints, both of which forget what they recognise. Said without the
 loop: which messages get through, and which rows are used up.
 */
module SecondLayer {
  import opened Sequences
  import opened Messages
  import opened LoopCache
  import MirrorProtocol

  /** The messages of a job that neither check knows, and the ledger afterwards. */
  function SiftBoth(msgs: seq<Key>, fps: seq<FpKey>, l: Ledger, now: real, window: real): (seq<Key>, Ledger)
    requires |fps| == |msgs|
  {
    if msgs == [] then ([], l)
    else
      var n := |msgs| - 1;
      var (out, left) := SiftBoth(msgs[..n], fps[..n], l, now, window);
      if Known(left, msgs[n]) then (out, Consumed(left, msgs[n]))
      else if FpKnown(left, fps[n], now, window) then (out, FpConsumed(left, fps[n], now, window))
      else (out + [msgs[n]], left)
  }

  /** The rows of a fingerprint written after `since`. */
  function Young(rows: seq<FpRow>, f: FpKey, since: real): nat
  {
    if rows == [] then 0
    else
      var last := rows[|rows| - 1];
      Young(rows[..|rows| - 1], f, since) + (if last.key == f && last.createdAt > since then 1 else 0)
  }

  /** How many of the first `n` messages have this content and no ledger entry. */
  function Unmarked(msgs: seq<Key>, fps: seq<FpKey>, l: Ledger, f: FpKey, n: nat): nat
    requires |fps| == |msgs| && n <= |msgs|
  {
    if n == 0 then 0
    else
      Unmarked(msgs, fps, l, f, n - 1) + (if fps[n - 1] == f && !Known(l, msgs[n - 1]) then 1 else 0)
  }

  function Minus(a: nat, b: nat): nat
  {
    if a < b then 0 else a - b
  }

  // ------------------------------------------------ one look-up

  lemma {:induction false} YoungAppend(rows: seq<FpRow>, row: FpRow, f: FpKey, since: real)
    ensures Young(rows + [row], f, since) ==
            Young(rows, f, since) + (if row.key == f && row.createdAt > since then 1 else 0)
  {
    assert (rows + [row])[..|rows|] == rows;
  }

  lemma {:induction false} YoungRemove(rows: seq<FpRow>, i: nat, f: FpKey, since: real)
    requires i < |rows|
    ensures Young(rows, f, since) == Young(RemoveAt(rows, i), f, since)
            + (if rows[i].key == f && rows[i].createdAt > since then 1 else 0)
    decreases |rows|
  {
    var n := |rows| - 1;
    if i == n {
      RemoveLast(rows);
    } else {
      hide Young;
      RemoveBeforeLast(rows, i);
      hide RemoveAt;
      YoungAppend(rows[..n], rows[n], f, since);
      YoungRemove(rows[..n], i, f, since);
      YoungAppend(RemoveAt(rows[..n], i), rows[n], f, since);
    }
  }

  lemma {:induction false} NoneYoung(rows: seq<FpRow>, f: FpKey, since: real)
    requires forall j | 0 <= j < |rows| :: rows[j].key != f || rows[j].createdAt <= since
    ensures Young(rows, f, since) == 0
  {
    if rows != [] {
      NoneYoung(rows[..|rows| - 1], f, since);
    }
  }

  lemma {:induction false} RemovalIsSubsequence<T>(s: seq<T>, i: nat)
    requires i < |s|
    ensures Subsequence(RemoveAt(s, i), s)
  {
    assert Picks(seq(|s| - 1, j requires 0 <= j < |s| - 1 => if j < i then j else j + 1), RemoveAt(s, i), s);
  }

  /** The second check knows a content exactly when it has a young row, and uses up one such row. */
  lemma {:induction false} FpCheckExact(l: Ledger, f: FpKey, now: real, window: real, g: FpKey)
    ensures FpKnown(l, f, now, window) <==> Young(l.fps, f, now - window) > 0
    ensures var t, hit := FpConsumed(l, f, now, window), FpKnown(l, f, now, window) && g == f;
            && t.sent == l.sent && Subsequence(t.fps, l.fps)
            && Young(t.fps, g, now - window) == Young(l.fps, g, now - window) - (if hit then 1 else 0)
            && CountFps(t.fps, g) == CountFps(l.fps, g) - (if hit then 1 else 0)
  {
    hide Subsequence;
    var i := FindFp(l.fps, f, now - window);
    if i < |l.fps| {
      YoungRemove(l.fps, i, f, now - window);
      YoungRemove(l.fps, i, g, now - window);
      CountFpsRemove(l.fps, i, g);
      RemovalIsSubsequence(l.fps, i);
    } else {
      NoneYoung(l.fps, f, now - window);
      SubsequenceOfItself(l.fps);
    }
  }

  /** A ledger look-up of one key changes no other. */
  lemma {:induction false} OtherKeyKnown(l: Ledger, key: Key, other: Key)
    requires other != key
    ensures Known(Consumed(l, key), other) <==> Known(l, other)
  {
    hide CountSent;
    KnownIsCounted(l, other);
    KnownIsCounted(Consumed(l, key), other);
    var i := FindSent(l.sent, key);
    if i < |l.sent| {
      CountRemove(l.sent, i, other);
    }
  }

  lemma {:induction false} KnownIsCounted(l: Ledger, key: Key)
    ensures Known(l, key) <==> CountSent(l.sent, key) > 0
  {
    var i := FindSent(l.sent, key);
    if i < |l.sent| {
      CountRemove(l.sent, i, key);
    } else {
      NoneCounted(l.sent, key);
    }
  }

  lemma {:induction false} NoneCounted(sent: seq<SentRow>, key: Key)
    requires forall j | 0 <= j < |sent| :: sent[j].key != key
    ensures CountSent(sent, key) == 0
  {
    if sent != [] {
      NoneCounted(sent[..|sent| - 1], key);
    }
  }

  // ------------------------------------------------ the whole job

  /** The first `n` messages. */
  function Sifted(msgs: seq<Key>, fps: seq<FpKey>, l: Ledger, now: real, window: real, n: nat): (seq<Key>, Ledger)
    requires |fps| == |msgs| && n <= |msgs|
  {
    SiftBoth(msgs[..n], fps[..n], l, now, window)
  }

  lemma {:induction false} SiftedMore(msgs: seq<Key>, fps: seq<FpKey>, l: Ledger, now: real, window: real, n: nat)
    requires |fps| == |msgs| && n < |msgs|
    ensures var (out, left) := Sifted(msgs, fps, l, now, window, n);
            Sifted(msgs, fps, l, now, window, n + 1) ==
            if Known(left, msgs[n]) then (out, Consumed(left, msgs[n]))
            else if FpKnown(left, fps[n], now, window) then (out, FpConsumed(left, fps[n], now, window))
            else (out + [msgs[n]], left)
  {
    assert msgs[..n + 1][..n] == msgs[..n] && fps[..n + 1][..n] == fps[..n];
  }

  lemma {:induction false} SiftedEnds(msgs: seq<Key>, fps: seq<FpKey>, l: Ledger, now: real, window: real)
    requires |fps| == |msgs|
    ensures Sifted(msgs, fps, l, now, window, 0) == ([], l)
    ensures Sifted(msgs, fps, l, now, window, |msgs|) == SiftBoth(msgs, fps, l, now, window)
  {
    assert msgs[..|msgs|] == msgs && fps[..|msgs|] == fps;
  }

  /** The ledger still knows what it knew of the messages to come. */
  lemma {:induction false} MarksAhead(
      msgs: seq<Key>, fps: seq<FpKey>, l: Ledger, now: real, window: real, n: nat, key: Key)
    requires |fps| == |msgs| && n <= |msgs| && key !in msgs[..n]
    ensures Known(Sifted(msgs, fps, l, now, window, n).1, key) <==> Known(l, key)
  {
    hide Sifted;
    hide Consumed;
    hide FpConsumed;
    hide FpKnown;
    if n == 0 {
      SiftedEnds(msgs, fps, l, now, window);
    } else {
      assert msgs[n - 1] in msgs[..n] && forall k | k in msgs[..n - 1] :: k in msgs[..n];
      MarksAhead(msgs, fps, l, now, window, n - 1, key);
      var left := Sifted(msgs, fps, l, now, window, n - 1).1;
      SiftedMore(msgs, fps, l, now, window, n - 1);
      OtherKeyKnown(left, msgs[n - 1], key);
      FpCheckExact(left, fps[n - 1], now, window, fps[n - 1]);
      SameSentKnown(left, FpConsumed(left, fps[n - 1], now, window), key);
    }
  }

  lemma {:induction false} SameSentKnown(l: Ledger, t: Ledger, key: Key)
    requires l.sent == t.sent
    ensures Known(l, key) <==> Known(t, key)
  {
  }

  /** Message `n` is looked up in a ledger that knows it exactly when the original one did. */
  lemma {:induction false} MarkOfNext(msgs: seq<Key>, fps: seq<FpKey>, l: Ledger, now: real, window: real, n: nat)
    requires |fps| == |msgs| && n < |msgs| && MirrorProtocol.NoRepeats(msgs)
    ensures Known(Sifted(msgs, fps, l, now, window, n).1, msgs[n]) <==> Known(l, msgs[n])
  {
    hide Sifted;
    hide Known;
    MarksAhead(msgs, fps, l, now, window, n, msgs[n]);
  }

  /** Each unmarked message of a content has used up one of its young rows, as long as there were any. */
  lemma {:induction false} YoungLeft(
      msgs: seq<Key>, fps: seq<FpKey>, l: Ledger, now: real, window: real, n: nat, f: FpKey)
    requires |fps| == |msgs| && n <= |msgs| && MirrorProtocol.NoRepeats(msgs)
    ensures var left, young := Sifted(msgs, fps, l, now, window, n).1, Young(l.fps, f, now - window);
            && Young(left.fps, f, now - window) == Minus(young, Unmarked(msgs, fps, l, f, n))
            && CountFps(l.fps, f) - CountFps(left.fps, f) == young - Young(left.fps, f, now - window)
            && Subsequence(left.fps, l.fps)
  {
    hide Sifted;
    hide Consumed;
    hide FpConsumed;
    hide FpKnown;
    hide Known;
    hide Young;
    hide CountFps;
    hide Subsequence;
    hide MirrorProtocol.NoRepeats;
    if n == 0 {
      SiftedEnds(msgs, fps, l, now, window);
      SubsequenceOfItself(l.fps);
    } else {
      YoungLeft(msgs, fps, l, now, window, n - 1, f);
      var left := Sifted(msgs, fps, l, now, window, n - 1).1;
      SiftedMore(msgs, fps, l, now, window, n - 1);
      MarkOfNext(msgs, fps, l, now, window, n - 1);
      FpCheckExact(left, fps[n - 1], now, window, f);
      ConsumedKeepsFps(left, msgs[n - 1]);
      if !Known(left, msgs[n - 1]) && FpKnown(left, fps[n - 1], now, window) {
        SubsequenceTransitive(FpConsumed(left, fps[n - 1], now, window).fps, left.fps, l.fps);
      }
    }
  }

  lemma {:induction false} ConsumedKeepsFps(l: Ledger, key: Key)
    ensures Consumed(l, key).fps == l.fps
  {
  }

  /** Nothing that is looked at later changes whether message `i` is kept. */
  lemma {:induction false} KeptStays(
      msgs: seq<Key>, fps: seq<FpKey>, l: Ledger, now: real, window: real, i: nat, n: nat)
    requires |fps| == |msgs| && i < n <= |msgs| && MirrorProtocol.NoRepeats(msgs)
    ensures msgs[i] in Sifted(msgs, fps, l, now, window, n).0 <==>
            msgs[i] in Sifted(msgs, fps, l, now, window, i + 1).0
  {
    hide Sifted;
    if i + 1 < n {
      KeptStays(msgs, fps, l, now, window, i, n - 1);
      SiftedMore(msgs, fps, l, now, window, n - 1);
      hide Known;
      hide FpKnown;
      assert msgs[i] != msgs[n - 1];
    }
  }

  lemma {:induction false} KeptFromJob(msgs: seq<Key>, fps: seq<FpKey>, l: Ledger, now: real, window: real, n: nat)
    requires |fps| == |msgs| && n <= |msgs|
    ensures Subsequence(Sifted(msgs, fps, l, now, window, n).0, msgs[..n])
    ensures forall k | k in Sifted(msgs, fps, l, now, window, n).0 :: k in msgs[..n]
  {
    hide Sifted;
    hide Subsequence;
    hide Known;
    hide FpKnown;
    if n == 0 {
      SiftedEnds(msgs, fps, l, now, window);
      NothingIsSubsequence(msgs[..0]);
    } else {
      KeptFromJob(msgs, fps, l, now, window, n - 1);
      SiftedMore(msgs, fps, l, now, window, n - 1);
      SubsequenceTakes(Sifted(msgs, fps, l, now, window, n - 1).0, msgs[..n - 1], msgs[n - 1]);
      assert msgs[..n] == msgs[..n - 1] + [msgs[n - 1]];
    }
  }

  /**
   What gets through, exactly: a message of the job is kept if and only if the ledger does
   not know it and the unmarked messages of its content before it have used up all young
   fingerprints of that content. What is kept keeps its order.
   */
  lemma {:induction false} KeptExactly(
      msgs: seq<Key>, fps: seq<FpKey>, l: Ledger, now: real, window: real, i: nat)
    requires |fps| == |msgs| && i < |msgs| && MirrorProtocol.NoRepeats(msgs)
    ensures msgs[i] in SiftBoth(msgs, fps, l, now, window).0 <==>
            !Known(l, msgs[i]) && Unmarked(msgs, fps, l, fps[i], i) >= Young(l.fps, fps[i], now - window)
    ensures Subsequence(SiftBoth(msgs, fps, l, now, window).0, msgs)
  {
    hide Subsequence;
    hide Sifted;
    hide SiftBoth;
    hide Young;
    hide Unmarked;
    SiftedEnds(msgs, fps, l, now, window);
    KeptFromJob(msgs, fps, l, now, window, |msgs|);
    assert msgs[..|msgs|] == msgs;
    KeptStays(msgs, fps, l, now, window, i, |msgs|);
    SiftedMore(msgs, fps, l, now, window, i);
    KeptFromJob(msgs, fps, l, now, window, i);
    NotBefore(msgs, i);
    MarkOfNext(msgs, fps, l, now, window, i);
    YoungLeft(msgs, fps, l, now, window, i, fps[i]);
    FpCheckExact(Sifted(msgs, fps, l, now, window, i).1, fps[i], now, window, fps[i]);
    hide Known;
    hide FpKnown;
  }

  lemma {:induction false} NotBefore(msgs: seq<Key>, i: nat)
    requires i < |msgs| && MirrorProtocol.NoRepeats(msgs)
    ensures msgs[i] !in msgs[..i]
  {
  }

  /** So a message whose content no earlier one of the job shares is dropped exactly when a check knows it. */
  lemma {:induction false} OwnContentKept(
      msgs: seq<Key>, fps: seq<FpKey>, l: Ledger, now: real, window: real, i: nat)
    requires |fps| == |msgs| && i < |msgs| && MirrorProtocol.NoRepeats(msgs)
    requires forall j | 0 <= j < i :: fps[j] != fps[i]
    ensures msgs[i] in SiftBoth(msgs, fps, l, now, window).0 <==>
            !Known(l, msgs[i]) && !FpKnown(l, fps[i], now, window)
  {
    hide SiftBoth;
    hide Known;
    hide FpKnown;
    KeptExactly(msgs, fps, l, now, window, i);
    NoneOfContent(msgs, fps, l, fps[i], i);
    FpCheckExact(l, fps[i], now, window, fps[i]);
  }

  lemma {:induction false} NoneOfContent(msgs: seq<Key>, fps: seq<FpKey>, l: Ledger, f: FpKey, n: nat)
    requires |fps| == |msgs| && n <= |msgs| && forall j | 0 <= j < n :: fps[j] != f
    ensures Unmarked(msgs, fps, l, f, n) == 0
  {
    if n > 0 {
      NoneOfContent(msgs, fps, l, f, n - 1);
    }
  }

  /**
   What is used up, exactly: of each content as many young rows as the job has unmarked
   messages of it, or all of them when there are fewer; no other row goes.
   */
  lemma {:induction false} RowsUsedUp(msgs: seq<Key>, fps: seq<FpKey>, l: Ledger, now: real, window: real, f: FpKey)
    requires |fps| == |msgs| && MirrorProtocol.NoRepeats(msgs)
    ensures var left, young := SiftBoth(msgs, fps, l, now, window).1, Young(l.fps, f, now - window);
            var unmarked := Unmarked(msgs, fps, l, f, |msgs|);
            && Young(left.fps, f, now - window) == Minus(young, unmarked)
            && CountFps(left.fps, f) == CountFps(l.fps, f) - (if unmarked < young then unmarked else young)
            && Subsequence(left.fps, l.fps)
  {
    hide Subsequence;
    hide SiftBoth;
    SiftedEnds(msgs, fps, l, now, window);
    YoungLeft(msgs, fps, l, now, window, |msgs|, f);
    hide Sifted;
    hide Young;
    hide Unmarked;
    hide CountFps;
  }
}
