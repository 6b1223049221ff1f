/**
 QueueEngine (bridge/transfer/queueing.py) and the first loops of the mirrors
 (mirror_t2b.py, mirror_b2t.py) as they run, over the ledger and the album collectors.
 Each method does what one step of the mirroring protocol does to the bridge's own state.
 */
module QueueEngine {
  import opened Sequences
  import opened Messages
  import opened MirrorProtocol
  import Albums
  import LoopCache
  import PairSend
  import Pairs
  import SecondLayer

  /** The ledger as the protocol sees it: the marked messages, with multiplicity. */
  function Tokens(sent: seq<LoopCache.SentRow>): multiset<Key>
  {
    if sent == [] then multiset{} else Tokens(sent[..|sent| - 1]) + multiset{sent[|sent| - 1].key}
  }

  lemma {:induction false} TokensAppend(sent: seq<LoopCache.SentRow>, row: LoopCache.SentRow)
    ensures Tokens(sent + [row]) == Tokens(sent) + multiset{row.key}
  {
    assert (sent + [row])[..|sent|] == sent;
  }

  lemma {:induction false} TokensSplit(sent: seq<LoopCache.SentRow>, i: nat)
    requires i < |sent|
    ensures Tokens(sent) == Tokens(RemoveAt(sent, i)) + multiset{sent[i].key}
    decreases |sent|
  {
    var n := |sent|;
    var init, last := sent[..n - 1], sent[n - 1];
    if i == n - 1 {
      RemoveLast(sent);
    } else {
      hide Tokens;
      RemoveBeforeLast(sent, i);
      hide RemoveAt;
      TokensAppend(init, last);
      TokensSplit(init, i);
      TokensAppend(RemoveAt(init, i), last);
      SumsSwap(Tokens(RemoveAt(init, i)), multiset{sent[i].key}, multiset{last.key});
    }
  }

  lemma {:induction false} TokenHasRow(sent: seq<LoopCache.SentRow>, key: Key)
    ensures key in Tokens(sent) <==> exists i :: 0 <= i < |sent| && sent[i].key == key
  {
    if sent != [] {
      var init := sent[..|sent| - 1];
      TokenHasRow(init, key);
      if i :| 0 <= i < |sent| && sent[i].key == key && i < |sent| - 1 {
        assert init[i].key == key;
      }
    }
  }

  /** A look-up in the ledger takes one token, if there is one. */
  lemma {:induction false} LookupTakesToken(l: LoopCache.Ledger, key: Key)
    ensures LoopCache.Known(l, key) <==> key in Tokens(l.sent)
    ensures Tokens(LoopCache.Consumed(l, key).sent) == Tokens(l.sent) - multiset{key}
  {
    var i := LoopCache.FindSent(l.sent, key);
    TokenHasRow(l.sent, key);
    if i < |l.sent| {
      TokensSplit(l.sent, i);
    }
  }

  /** The keys of the messages a `pair_send` has created. */
  function MadeKeys(pair: Pairs.Pair, to: Platform, mapped: seq<PairSend.Copy>): (keys: seq<Key>)
    ensures |keys| == |mapped|
    ensures forall i | 0 <= i < |keys| :: keys[i] == Key(to, PairSend.Destination(pair, to), mapped[i].id)
  {
    seq(|mapped|, i requires 0 <= i < |mapped| => Key(to, PairSend.Destination(pair, to), mapped[i].id))
  }

  lemma {:induction false} OneMoreRow(
      sent: seq<LoopCache.SentRow>, rows: seq<LoopCache.SentRow>, keys: seq<Key>, row: LoopCache.SentRow)
    requires Tokens(sent + rows) == Tokens(sent) + multiset(keys)
    ensures Tokens(sent + (rows + [row])) == Tokens(sent) + multiset(keys + [row.key])
  {
    hide Tokens;
    assert sent + (rows + [row]) == (sent + rows) + [row];
    TokensAppend(sent + rows, row);
    assert multiset(keys + [row.key]) == multiset(keys) + multiset{row.key};
  }

  predicate SameKeys(rows: seq<LoopCache.SentRow>, keys: seq<Key>)
  {
    |keys| == |rows| && forall i | 0 <= i < |rows| :: rows[i].key == keys[i]
  }

  lemma {:induction false} SameKeysInit(rows: seq<LoopCache.SentRow>, keys: seq<Key>)
    requires SameKeys(rows, keys) && rows != []
    ensures var n := |rows| - 1;
            && |keys| == n + 1 && SameKeys(rows[..n], keys[..n]) && rows[n].key == keys[n]
            && rows == rows[..n] + [rows[n]] && keys == keys[..n] + [keys[n]]
  {
  }

  lemma {:induction false} RowsAddTokens(sent: seq<LoopCache.SentRow>, rows: seq<LoopCache.SentRow>, keys: seq<Key>)
    requires SameKeys(rows, keys)
    ensures Tokens(sent + rows) == Tokens(sent) + multiset(keys)
    decreases |rows|
  {
    if rows == [] {
      assert sent + rows == sent && keys == [];
    } else {
      SameKeysInit(rows, keys);
      hide *;
      var n := |rows| - 1;
      RowsAddTokens(sent, rows[..n], keys[..n]);
      OneMoreRow(sent, rows[..n], keys[..n], rows[n]);
    }
  }

  /** What `pair_send` records is a token for each message it created. */
  lemma {:induction false} RecordAddsTokens(
      sent: seq<LoopCache.SentRow>, pair: Pairs.Pair, to: Platform, mapped: seq<PairSend.Copy>, clock: seq<real>)
    requires |clock| == |mapped|
    ensures Tokens(sent + PairSend.NewTokens(pair, to, mapped, clock)) ==
            Tokens(sent) + multiset(MadeKeys(pair, to, mapped))
  {
    hide Tokens;
    var rows, keys := PairSend.NewTokens(pair, to, mapped, clock), MadeKeys(pair, to, mapped);
    assert SameKeys(rows, keys);
    RowsAddTokens(sent, rows, keys);
  }

  class QueueEngine {
    const cache: LoopCache.LoopCache
    const albumsTg: Albums.AlbumCollector<nat, Key>
    const albumsBale: Albums.AlbumCollector<nat, Key>
    var qTg: seq<seq<Key>>
    var qBale: seq<seq<Key>>
    /** Edit jobs: the protocol follows only what they do to the ledger. */
    var edits: seq<Key>
    var paused: bool

    ghost predicate Valid()
      reads this, albumsTg, albumsBale
    {
      && albumsTg != albumsBale
      && albumsTg.Valid() && albumsTg.le == ById
      && albumsBale.Valid() && albumsBale.le == ById
    }

    ghost function Abs(): Bridge
      reads this, cache, albumsTg, albumsBale
    {
      Bridge(Tokens(cache.sent), Inbox(qTg, albumsTg.pending), Inbox(qBale, albumsBale.pending), paused)
    }

    constructor (
        cache: LoopCache.LoopCache, albumsTg: Albums.AlbumCollector<nat, Key>,
        albumsBale: Albums.AlbumCollector<nat, Key>)
      requires albumsTg != albumsBale && albumsTg.Valid() && albumsBale.Valid()
      requires albumsTg.le == ById && albumsBale.le == ById
      ensures Valid() && this.cache == cache && this.albumsTg == albumsTg && this.albumsBale == albumsBale
      ensures Abs() == Bridge(Tokens(cache.sent), Inbox([], albumsTg.pending), Inbox([], albumsBale.pending), false)
    {
      this.cache, this.albumsTg, this.albumsBale := cache, albumsTg, albumsBale;
      qTg, qBale, edits, paused := [], [], [], false;
    }

    /** `guard.seen` */
    method Seen(k: Key) returns (known: bool)
      requires Valid()
      modifies cache
      ensures Valid() && known == (k in old(Abs()).tokens)
      ensures Abs() == old(Abs()).(tokens := old(Abs()).tokens - multiset{k})
      ensures known == LoopCache.Known(old(cache.State()), k)
      ensures cache.State() == LoopCache.Consumed(old(cache.State()), k) && cache.fps == old(cache.fps)
    {
      LookupTakesToken(cache.State(), k);
      known := cache.WasSent(k);
    }

    /** `on_tg_new`, `queue_bale_msg` */
    method OnNew(k: Key, gid: Option<nat>)
      requires Valid()
      modifies this, cache, albumsTg, albumsBale
      ensures Valid() && Abs() == MirrorProtocol.OnNew(old(Abs()), k, gid)
    {
      hide Tokens;
      hide Received;
      hide LoopCache.Known;
      var known := Seen(k);
      if known {
        return;
      }
      NotInMinus(old(Abs()).tokens, k);
      Receive(k, gid);
    }

    /** A message of an album is buffered, any other queued. */
    method Receive(k: Key, gid: Option<nat>)
      requires Valid()
      modifies this, albumsTg, albumsBale
      ensures Valid() && Abs() == old(Abs()).With(k.platform, Received(old(Abs()).At(k.platform), k, gid))
    {
      hide Tokens;
      match gid
      case Some(g) =>
        if k.platform == Tg {
          albumsTg.Feed(g, k);
        } else {
          albumsBale.Feed(g, k);
        }
      case None =>
        if k.platform == Tg {
          qTg := qTg + [[k]];
        } else {
          qBale := qBale + [[k]];
        }
    }

    /** `on_tg_edit` */
    method OnEdit(k: Key)
      requires Valid()
      modifies this, cache
      ensures Valid() && Abs() == MirrorProtocol.OnEdit(old(Abs()), k)
      ensures edits == if k in old(Abs()).tokens then old(edits) else old(edits) + [k]
    {
      var known := Seen(k);
      if !known {
        edits := edits + [k];
      }
    }

    /** The album timer of `gid` on platform `p` fires. */
    method OnTimer(p: Platform, gid: nat)
      requires Valid()
      modifies this, albumsTg, albumsBale
      ensures Valid() && Abs() == MirrorProtocol.OnTimer(old(Abs()), p, gid)
    {
      hide Tokens;
      if p == Tg {
        var before := |albumsTg.queue|;
        albumsTg.Flush(gid);
        if |albumsTg.queue| > before {
          qTg := qTg + [albumsTg.queue[before]];
        }
      } else {
        var before := |albumsBale.queue|;
        albumsBale.Flush(gid);
        if |albumsBale.queue| > before {
          qBale := qBale + [albumsBale.queue[before]];
        }
      }
    }

    /** The Telegram mirror's filter: `[m for m in msgs if not was_sent(m)]`. */
    method SiftTg(msgs: seq<Key>) returns (out: seq<Key>)
      requires Valid()
      modifies cache
      ensures Valid() && out == Sift(msgs, old(Abs()).tokens).0
      ensures Abs() == old(Abs()).(tokens := Sift(msgs, old(Abs()).tokens).1) && cache.fps == old(cache.fps)
    {
      out := [];
      NothingSifted(msgs, Abs().tokens);
      hide Tokens;
      hide Sift;
      for i := 0 to |msgs|
        invariant Valid() && out == Sift(msgs[..i], old(Abs()).tokens).0
        invariant Abs() == old(Abs()).(tokens := Sift(msgs[..i], old(Abs()).tokens).1) && cache.fps == old(cache.fps)
      {
        SiftMore(msgs, i, old(Abs()).tokens);
        ghost var left := Sift(msgs[..i], old(Abs()).tokens).1;
        var known := Seen(msgs[i]);
        if !known {
          NotInMinus(left, msgs[i]);
          out := out + [msgs[i]];
        }
      }
    }

    /**
     The Bale mirror's loop: the ledger first, then the fingerprint. `recognised` tells
     which messages the second check knew.
     */
    method SiftBale(msgs: seq<Key>, fps: seq<FpKey>, now: real, window: real)
      returns (out: seq<Key>, ghost recognised: set<Key>)
      requires Valid() && NoRepeats(msgs) && |fps| == |msgs|
      modifies cache
      ensures (out, cache.State()) == SecondLayer.SiftBoth(msgs, fps, old(cache.State()), now, window)
      ensures Valid() && out == Unrecognised(Sift(msgs, old(Abs()).tokens).0, recognised)
      ensures Abs() == old(Abs()).(tokens := Sift(msgs, old(Abs()).tokens).1)
      ensures recognised == set k | k in Sift(msgs, old(Abs()).tokens).0 && k !in out
    {
      out := [];
      ghost var ledger := cache.State();
      SecondLayer.SiftedEnds(msgs, fps, ledger, now, window);
      BothAgree(msgs, fps, ledger, now, window, |msgs|);
      hide *;
      for i := 0 to |msgs|
        invariant unchanged(this, albumsTg, albumsBale)
        invariant (out, cache.State()) == SecondLayer.Sifted(msgs, fps, ledger, now, window, i)
      {
        SecondLayer.SiftedMore(msgs, fps, ledger, now, window, i);
        var known := cache.WasSent(msgs[i]);
        if known {
          continue;
        }
        var again := cache.CheckFp(fps[i], now, window);
        if !again {
          out := out + [msgs[i]];
        }
      }
      recognised := Dropped(msgs, Tokens(ledger.sent), out);
    }

    /** `q.get()` on the queue of `p`. */
    method Get(p: Platform) returns (job: seq<Key>)
      requires Valid() && Abs().At(p).queue != []
      modifies this
      ensures Valid() && job == old(Abs()).At(p).queue[0]
      ensures Abs() == old(Abs()).With(p, old(Abs()).At(p).(queue := old(Abs()).At(p).queue[1..]))
    {
      hide Tokens;
      if p == Tg {
        job := qTg[0];
        qTg := qTg[1..];
      } else {
        job := qBale[0];
        qBale := qBale[1..];
      }
    }

    /**
     One turn of the worker of `p` on a job of new messages, up to the pairs: a paused bridge
     throws the job away; otherwise what is returned goes to `pair_send`.
     */
    method Work(p: Platform, fps: seq<FpKey>, now: real, window: real)
      returns (out: seq<Key>, ghost recognised: set<Key>)
      requires Valid() && Abs().At(p).queue != []
      requires NoRepeats(Abs().At(p).queue[0]) && |fps| == |Abs().At(p).queue[0]|
      modifies this, cache
      ensures Valid() && Abs() == Taken(old(Abs()), p)
      ensures p == Tg ==> recognised == {}
      ensures forall s: State, legs: seq<Leg> | s.b == old(Abs()) ::
                && TakeJob(s, p, recognised, legs).b == Abs()
                && TakeJob(s, p, recognised, legs).mirrored == s.mirrored + HandedOn(out, legs)
      ensures out == if old(Abs()).paused then []
              else Unrecognised(Sift(old(Abs()).At(p).queue[0], old(Abs()).tokens).0, recognised)
      ensures p == Bale && !old(Abs()).paused ==>
                (out, cache.State()) ==
                SecondLayer.SiftBoth(old(Abs()).At(p).queue[0], fps, old(cache.State()), now, window)
      ensures p == Tg || old(Abs()).paused ==> cache.fps == old(cache.fps)
    {
      hide Tokens;
      hide Sift;
      hide Unrecognised;
      hide NoRepeats;
      var job := Get(p);
      if paused {
        return [], {};
      }
      if p == Tg {
        out := SiftTg(job);
        recognised := {};
        NoneRecognised(out);
      } else {
        out, recognised := SiftBale(job, fps, now, window);
      }
    }
  }

  lemma {:induction false} NothingSifted(msgs: seq<Key>, tokens: multiset<Key>)
    ensures Sift(msgs[..0], tokens) == ([], tokens) && Unrecognised([], {}) == [] && msgs[..|msgs|] == msgs
  {
  }

  lemma {:induction false} SiftMore(msgs: seq<Key>, i: nat, tokens: multiset<Key>)
    requires i < |msgs|
    ensures var (out, left) := Sift(msgs[..i], tokens);
            Sift(msgs[..i + 1], tokens) ==
            if msgs[i] in left then (out, left - multiset{msgs[i]}) else (out + [msgs[i]], left)
  {
    assert msgs[..i + 1][..i] == msgs[..i];
  }

  lemma {:induction false} NotInMinus(tokens: multiset<Key>, k: Key)
    requires k !in tokens
    ensures tokens - multiset{k} == tokens
  {
  }

  /** Without recognised fingerprints everything stays. */
  lemma {:induction false} NoneRecognised(msgs: seq<Key>)
    ensures Unrecognised(msgs, {}) == msgs
  {
    if msgs != [] {
      NoneRecognised(msgs[..|msgs| - 1]);
      assert msgs == msgs[..|msgs| - 1] + [msgs[|msgs| - 1]];
    }
  }

  /** The messages kept so far are among those looked at, and the next one is new. */
  lemma {:induction false} SiftedFrom(msgs: seq<Key>, i: nat, tokens: multiset<Key>)
    requires NoRepeats(msgs) && i < |msgs|
    ensures msgs[i] !in Sift(msgs[..i], tokens).0
  {
    SiftExact(msgs[..i], tokens, msgs[i]);
  }

  lemma {:induction false} UnrecognisedMore(before: seq<Key>, k: Key, recognised: set<Key>)
    requires k !in before && k !in recognised
    ensures Unrecognised(before + [k], recognised + {k}) == Unrecognised(before, recognised)
    ensures Unrecognised(before + [k], recognised) == Unrecognised(before, recognised) + [k]
  {
    assert (before + [k])[..|before|] == before;
    UnrecognisedElsewhere(before, k, recognised);
  }

  /** The messages the ledger left and the second check did not. */
  function Dropped(msgs: seq<Key>, tokens: multiset<Key>, out: seq<Key>): set<Key>
  {
    set k | k in Sift(msgs, tokens).0 && k !in out
  }

  /** To the protocol the two checks are its sifting, with what the second one knew recognised. */
  lemma {:induction false} BothAgree(
      msgs: seq<Key>, fps: seq<FpKey>, l: LoopCache.Ledger, now: real, window: real, n: nat)
    requires |fps| == |msgs| && n <= |msgs| && NoRepeats(msgs)
    ensures var (out, left) := SecondLayer.Sifted(msgs, fps, l, now, window, n);
            var sifted := Sift(msgs[..n], Tokens(l.sent));
            && Tokens(left.sent) == sifted.1
            && out == Unrecognised(sifted.0, Dropped(msgs[..n], Tokens(l.sent), out))
    ensures msgs[..|msgs|] == msgs
  {
    hide Tokens;
    hide Sift;
    hide Unrecognised;
    hide NoRepeats;
    hide SecondLayer.Sifted;
    if n == 0 {
      NothingSifted(msgs, Tokens(l.sent));
      SecondLayer.SiftedEnds(msgs, fps, l, now, window);
      assert Dropped(msgs[..0], Tokens(l.sent), []) == {};
    } else {
      BothAgree(msgs, fps, l, now, window, n - 1);
      BothStep(msgs, fps, l, now, window, n - 1);
    }
  }

  lemma {:induction false} BothStep(
      msgs: seq<Key>, fps: seq<FpKey>, l: LoopCache.Ledger, now: real, window: real, n: nat)
    requires |fps| == |msgs| && n < |msgs| && NoRepeats(msgs)
    requires var (out, left) := SecondLayer.Sifted(msgs, fps, l, now, window, n);
             var sifted := Sift(msgs[..n], Tokens(l.sent));
             && Tokens(left.sent) == sifted.1
             && out == Unrecognised(sifted.0, Dropped(msgs[..n], Tokens(l.sent), out))
    ensures var (out, left) := SecondLayer.Sifted(msgs, fps, l, now, window, n + 1);
            var sifted := Sift(msgs[..n + 1], Tokens(l.sent));
            && Tokens(left.sent) == sifted.1
            && out == Unrecognised(sifted.0, Dropped(msgs[..n + 1], Tokens(l.sent), out))
  {
    hide Tokens;
    hide Sift;
    hide Unrecognised;
    hide NoRepeats;
    hide SecondLayer.Sifted;
    hide LoopCache.Known;
    hide LoopCache.FpKnown;
    hide LoopCache.Consumed;
    var k, tokens := msgs[n], Tokens(l.sent);
    var (out, left) := SecondLayer.Sifted(msgs, fps, l, now, window, n);
    var (before, rest) := Sift(msgs[..n], tokens);
    SecondLayer.SiftedMore(msgs, fps, l, now, window, n);
    SiftMore(msgs, n, tokens);
    SiftedFrom(msgs, n, tokens);
    LookupTakesToken(left, k);
    var r := Dropped(msgs[..n], tokens, out);
    UnrecognisedIn(before, r, k);
    UnrecognisedMore(before, k, r);
    if k in rest {
      SameDropped(msgs, n, tokens, out);
    } else {
      NotInMinus(rest, k);
      SecondLayer.FpCheckExact(left, fps[n], now, window, fps[n]);
      MoreDropped(msgs, n, tokens, out);
    }
  }

  lemma {:induction false} SameDropped(msgs: seq<Key>, n: nat, tokens: multiset<Key>, out: seq<Key>)
    requires n < |msgs| && Sift(msgs[..n + 1], tokens).0 == Sift(msgs[..n], tokens).0
    ensures Dropped(msgs[..n + 1], tokens, out) == Dropped(msgs[..n], tokens, out)
  {
    hide Sift;
  }

  lemma {:induction false} MoreDropped(msgs: seq<Key>, n: nat, tokens: multiset<Key>, out: seq<Key>)
    requires n < |msgs| && msgs[n] !in Sift(msgs[..n], tokens).0 && msgs[n] !in out
    requires Sift(msgs[..n + 1], tokens).0 == Sift(msgs[..n], tokens).0 + [msgs[n]]
    ensures Dropped(msgs[..n + 1], tokens, out) == Dropped(msgs[..n], tokens, out) + {msgs[n]}
    ensures Dropped(msgs[..n + 1], tokens, out + [msgs[n]]) == Dropped(msgs[..n], tokens, out)
  {
    hide Sift;
  }

  lemma {:induction false} UnrecognisedIn(msgs: seq<Key>, recognised: set<Key>, k: Key)
    ensures k in Unrecognised(msgs, recognised) ==> k in msgs
  {
    UnrecognisedExact(msgs, recognised, k);
  }

  lemma {:induction false} UnrecognisedElsewhere(before: seq<Key>, k: Key, recognised: set<Key>)
    requires k !in before
    ensures Unrecognised(before, recognised + {k}) == Unrecognised(before, recognised)
  {
    if before != [] {
      UnrecognisedElsewhere(before[..|before| - 1], k, recognised);
    }
  }
}
