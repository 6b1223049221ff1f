/**
 The code of two-way deletion: LoopGuard's echo sets (bridge/transfer/loopguard.py), the
 delete entry points (queueing.py) and both processors (sync_delete.py). Each method does
 what a sequence of protocol steps does, kept as a ghost copy of the whole system.
 */
module DeleteSync {
  import opened Sequences
  import opened Messages
  import opened MessageMap
  import opened DeleteProtocol
  import Pairs

  class LoopGuard {
    var ignoreTg: set<(string, nat)>
    var ignoreBale: set<(string, nat)>

    predicate Ignores(k: Key)
      reads this
    {
      if k.platform == Tg then (k.chat, k.id) in ignoreTg else (k.chat, k.id) in ignoreBale
    }

    constructor ()
      ensures forall k :: !Ignores(k)
    {
      ignoreTg, ignoreBale := {}, {};
    }

    method Suppress(k: Key)
      modifies this
      ensures forall x :: Ignores(x) <==> old(Ignores(x)) || x == k
    {
      if k.platform == Tg {
        ignoreTg := ignoreTg + {(k.chat, k.id)};
      } else {
        ignoreBale := ignoreBale + {(k.chat, k.id)};
      }
    }

    method Release(k: Key)
      modifies this
      ensures forall x :: Ignores(x) <==> old(Ignores(x)) && x != k
    {
      if k.platform == Tg {
        ignoreTg := ignoreTg - {(k.chat, k.id)};
      } else {
        ignoreBale := ignoreBale - {(k.chat, k.id)};
      }
    }

    method Consume(k: Key) returns (echo: bool)
      modifies this
      ensures echo == old(Ignores(k))
      ensures forall x :: Ignores(x) <==> old(Ignores(x)) && x != k
    {
      echo := Ignores(k);
      if echo {
        Release(k);
      }
    }
  }

  /**
   How a delete call goes, if the message still exists: done, refused, or another exception
   before or after it took effect.
   */
  datatype Fate = Done | Refused | RaisedBefore | RaisedAfter

  /** The state some steps lead to. */
  ghost function After(s: State, steps: seq<Step>, selfBot: bool): Option<State>
  {
    if steps == [] then Some(s)
    else
      match After(s, steps[..|steps| - 1], selfBot)
      case None => None
      case Some(t) => if Enabled(t, steps[|steps| - 1]) then Some(Next(t, steps[|steps| - 1], selfBot)) else None
  }

  /** The pair exists and its mode lets deletions on `p` through. */
  predicate Serves(pairs: map<int, Pairs.Pair>, pair: int, p: Platform)
  {
    pair in pairs && pairs[pair].mode != (if p == Tg then Pairs.Bale2Tg else Pairs.Tg2Bale)
  }

  /** The message a hit leads this direction to delete, if any. */
  function Target(h: Hit, pairs: map<int, Pairs.Pair>, p: Platform): set<Key>
  {
    if h.end.platform == Other(p) && Serves(pairs, h.pair, p) then {h.end} else {}
  }

  function AllTargets(hits: seq<Hit>, pairs: map<int, Pairs.Pair>, p: Platform): set<Key>
  {
    if hits == [] then {} else AllTargets(hits[..|hits| - 1], pairs, p) + Target(hits[|hits| - 1], pairs, p)
  }

  /** Deleting `mid` on platform `p` is to delete `k`: some row of a pair that serves this direction joins them. */
  ghost predicate Reaches(rows: seq<Row>, pairs: map<int, Pairs.Pair>, p: Platform, mid: Key, k: Key)
  {
    k.platform == Other(p) && exists row :: row in rows && Joins(row, mid, k, row.pair) && Serves(pairs, row.pair, p)
  }

  /**
   Which deletions a pair lets through, by the names of its modes: "tg2bale" those in
   Telegram, "bale2tg" those in Bale, "both" all; and an unknown pair none.
   */
  lemma {:induction false} ModesServe(pairs: map<int, Pairs.Pair>, pair: int)
    ensures pair !in pairs ==> !Serves(pairs, pair, Tg) && !Serves(pairs, pair, Bale)
    ensures pair in pairs ==>
              match pairs[pair].mode
              case Tg2Bale => Serves(pairs, pair, Tg) && !Serves(pairs, pair, Bale)
              case Bale2Tg => !Serves(pairs, pair, Tg) && Serves(pairs, pair, Bale)
              case Both => Serves(pairs, pair, Tg) && Serves(pairs, pair, Bale)
  {
  }

  /**
   A deletion follows the direction its message was mirrored in: when a pair the mirror finds
   for the chat of a message has linked it to a copy, deleting the message is to delete the copy.
   */
  lemma {:induction false} MirroredIsReached(
      rows: seq<Row>, row: Row, pairs: map<int, Pairs.Pair>, table: seq<Pairs.Pair>, tgChat: Option<int>,
      chat: string, username: Option<string>)
    requires row in rows && row.pair in pairs && row.dst.platform == Other(row.src.platform)
    requires if row.src.platform == Tg then pairs[row.pair] in Pairs.ForTg(table, tgChat)
             else pairs[row.pair] in Pairs.ForBale(table, chat, username)
    ensures Reaches(rows, pairs, row.src.platform, row.src, row.dst)
  {
    Pairs.ForTgExact(table, tgChat, pairs[row.pair]);
    Pairs.ForBaleExact(table, chat, username, pairs[row.pair]);
    assert Joins(row, row.src, row.dst, row.pair);
  }

  /** What the look-up of `mid` leads to is what it reaches. */
  lemma {:induction false} TargetsReached(
      rows: seq<Row>, mid: Key, pairs: map<int, Pairs.Pair>, p: Platform, k: Key)
    ensures k in AllTargets(OtherSide(rows, mid, None), pairs, p) <==> Reaches(rows, pairs, p, mid, k)
  {
    hide OtherSide;
    hide Serves;
    var hits := OtherSide(rows, mid, None);
    AllTargetsExact(hits, pairs, p, k);
    if k in AllTargets(hits, pairs, p) {
      var h :| h in hits && k in Target(h, pairs, p);
      LookupSound(rows, mid, None);
      var row :| row in rows && row.id == h.row && Joins(row, mid, h.end, h.pair);
    }
    if Reaches(rows, pairs, p, mid, k) {
      var row :| row in rows && Joins(row, mid, k, row.pair) && Serves(pairs, row.pair, p);
      LookupExact(rows, mid, None, k, row.pair);
      assert Linked(rows, mid, k, row.pair);
      var i :| 0 <= i < |hits| && hits[i].end == k && hits[i].pair == row.pair;
      assert k in Target(hits[i], pairs, p);
    }
  }

  lemma {:induction false} AllTargetsExact(hits: seq<Hit>, pairs: map<int, Pairs.Pair>, p: Platform, k: Key)
    ensures k in AllTargets(hits, pairs, p) <==> exists h :: h in hits && k in Target(h, pairs, p)
  {
    hide Target;
    if hits != [] {
      var init, last := hits[..|hits| - 1], hits[|hits| - 1];
      AllTargetsExact(init, pairs, p, k);
      assert hits == init + [last];
      assert AllTargets(hits, pairs, p) == AllTargets(init, pairs, p) + Target(last, pairs, p);
    }
  }

  /** A hit this direction serves: its message is deleted and its row removed. */
  predicate Served(h: Hit, pairs: map<int, Pairs.Pair>, p: Platform)
  {
    h.end.platform == Other(p) && Serves(pairs, h.pair, p)
  }

  /** One of the first `n` deleted messages reaches `k`. */
  ghost predicate ReachedBy(
      rows: seq<Row>, pairs: map<int, Pairs.Pair>, p: Platform, keys: seq<Key>, n: nat, k: Key)
    requires n <= |keys|
  {
    exists j :: 0 <= j < n && Reaches(rows, pairs, p, keys[j], k)
  }

  /** Rows carry different ids (the primary key), and the job is one of platform `p`. */
  ghost predicate Proper(rows: seq<Row>, keys: seq<Key>, p: Platform)
  {
    (forall a, b | a in rows && b in rows && a.id == b.id :: a == b) && forall k | k in keys :: k.platform == p
  }

  /** One of the first `n` deleted messages has used the row up. */
  ghost predicate UsedUp(row: Row, pairs: map<int, Pairs.Pair>, p: Platform, keys: seq<Key>, n: nat)
    requires n <= |keys|
  {
    exists j, k: Key :: 0 <= j < n && k.platform == Other(p) && Joins(row, keys[j], k, row.pair) &&
                        Serves(pairs, row.pair, p)
  }

  /** After `n` of its messages a job has asked for exactly what they reach, and used up those rows. */
  ghost predicate Progress(
      rows0: seq<Row>, called0: set<Key>, rows: seq<Row>, called: set<Key>, pairs: map<int, Pairs.Pair>,
      p: Platform, keys: seq<Key>, n: nat)
    requires n <= |keys|
  {
    && (forall row | row in rows :: row in rows0)
    && called0 <= called
    && (forall k | k in called :: k in called0 || ReachedBy(rows0, pairs, p, keys, n, k))
    && (Proper(rows0, keys, p) ==>
        && (forall row | row in rows0 :: row in rows || UsedUp(row, pairs, p, keys, n))
        && (forall k | ReachedBy(rows0, pairs, p, keys, n, k) :: k in called))
  }

  /** Some row was removed, and each by a hit of `hits` this direction serves. */
  ghost predicate RowsAfter(before: seq<Row>, after: seq<Row>, hits: seq<Hit>, pairs: map<int, Pairs.Pair>, p: Platform)
  {
    && (forall row | row in after :: row in before)
    && (forall row | row in before :: row in after || exists h :: h in hits && h.row == row.id && Served(h, pairs, p))
  }

  lemma {:induction false} ProgressStarts(
      rows: seq<Row>, called: set<Key>, pairs: map<int, Pairs.Pair>, p: Platform, keys: seq<Key>)
    ensures Progress(rows, called, rows, called, pairs, p, keys, 0)
  {
  }

  lemma {:induction false} RowUsedUp(
      rows0: seq<Row>, rows: seq<Row>, row: Row, h: Hit, pairs: map<int, Pairs.Pair>, p: Platform, keys: seq<Key>,
      n: nat)
    requires n < |keys| && Proper(rows0, keys, p) && row in rows && forall r | r in rows :: r in rows0
    requires h in OtherSide(rows, keys[n], None) && h.row == row.id && Served(h, pairs, p)
    ensures UsedUp(row, pairs, p, keys, n + 1)
  {
    hide OtherSide;
    hide Serves;
    LookupSound(rows, keys[n], None);
    var r :| r in rows && r.id == h.row && Joins(r, keys[n], h.end, h.pair);
    assert r == row;
  }

  lemma {:induction false} ReachedNow(
      rows0: seq<Row>, called0: set<Key>, rows: seq<Row>, called: set<Key>, pairs: map<int, Pairs.Pair>,
      p: Platform, keys: seq<Key>, n: nat, k: Key)
    requires n < |keys| && Progress(rows0, called0, rows, called, pairs, p, keys, n) && Proper(rows0, keys, p)
    requires Reaches(rows0, pairs, p, keys[n], k)
    ensures k in called || Reaches(rows, pairs, p, keys[n], k)
  {
    hide Serves;
    var row :| row in rows0 && Joins(row, keys[n], k, row.pair) && Serves(pairs, row.pair, p);
    if row !in rows {
      assert UsedUp(row, pairs, p, keys, n);
      var j, k': Key :| 0 <= j < n && k'.platform == Other(p) && Joins(row, keys[j], k', row.pair) &&
          Serves(pairs, row.pair, p);
      assert keys[n] in keys && keys[j] in keys;
      assert k' == k;
      assert Reaches(rows0, pairs, p, keys[j], k);
      assert ReachedBy(rows0, pairs, p, keys, n, k);
    }
  }

  lemma {:induction false} ProgressOn(
      rows0: seq<Row>, called0: set<Key>, rows: seq<Row>, called: set<Key>, rows': seq<Row>, called': set<Key>,
      pairs: map<int, Pairs.Pair>, p: Platform, keys: seq<Key>, n: nat)
    requires n < |keys| && Progress(rows0, called0, rows, called, pairs, p, keys, n)
    requires var hits := OtherSide(rows, keys[n], None);
             RowsAfter(rows, rows', hits, pairs, p) && called' == called + AllTargets(hits, pairs, p)
    ensures Progress(rows0, called0, rows', called', pairs, p, keys, n + 1)
  {
    hide OtherSide;
    hide AllTargets;
    hide Served;
    hide Reaches;
    forall k
      ensures k in AllTargets(OtherSide(rows, keys[n], None), pairs, p) <==> Reaches(rows, pairs, p, keys[n], k)
      ensures Reaches(rows, pairs, p, keys[n], k) ==> Reaches(rows0, pairs, p, keys[n], k)
      ensures Proper(rows0, keys, p) && Reaches(rows0, pairs, p, keys[n], k) ==>
                k in called || Reaches(rows, pairs, p, keys[n], k)
    {
      TargetsReached(rows, keys[n], pairs, p, k);
      MoreRowsReach(rows, rows0, pairs, p, keys[n], k);
      if Proper(rows0, keys, p) && Reaches(rows0, pairs, p, keys[n], k) {
        ReachedNow(rows0, called0, rows, called, pairs, p, keys, n, k);
      }
    }
    if Proper(rows0, keys, p) {
      forall row | row in rows0
        ensures row in rows' || UsedUp(row, pairs, p, keys, n + 1)
      {
        if row in rows && row !in rows' {
          var h :| h in OtherSide(rows, keys[n], None) && h.row == row.id && Served(h, pairs, p);
          RowUsedUp(rows0, rows, row, h, pairs, p, keys, n);
        } else if row !in rows {
          assert UsedUp(row, pairs, p, keys, n);
          StillUsedUp(row, pairs, p, keys, n);
        }
      }
    }
    ReachedMore(rows0, pairs, p, keys, n);
    hide UsedUp;
    hide Proper;
    hide ReachedBy;
  }

  lemma {:induction false} MoreRowsReach(
      rows: seq<Row>, rows0: seq<Row>, pairs: map<int, Pairs.Pair>, p: Platform, mid: Key, k: Key)
    requires forall row | row in rows :: row in rows0
    ensures Reaches(rows, pairs, p, mid, k) ==> Reaches(rows0, pairs, p, mid, k)
  {
  }

  lemma {:induction false} StillUsedUp(row: Row, pairs: map<int, Pairs.Pair>, p: Platform, keys: seq<Key>, n: nat)
    requires n < |keys| && UsedUp(row, pairs, p, keys, n)
    ensures UsedUp(row, pairs, p, keys, n + 1)
  {
    hide Serves;
  }

  /** An exception ends the job: what was asked for is still only what it reaches. */
  lemma {:induction false} ProgressBroken(
      rows0: seq<Row>, called0: set<Key>, rows: seq<Row>, called: set<Key>, called': set<Key>,
      pairs: map<int, Pairs.Pair>, p: Platform, keys: seq<Key>, n: nat)
    requires n < |keys| && Progress(rows0, called0, rows, called, pairs, p, keys, n)
    requires called' <= called + AllTargets(OtherSide(rows, keys[n], None), pairs, p)
    ensures forall k | k in called' :: k in called0 || ReachedBy(rows0, pairs, p, keys, |keys|, k)
  {
    hide OtherSide;
    hide AllTargets;
    hide Reaches;
    hide Proper;
    hide UsedUp;
    forall k | k in called'
      ensures k in called0 || ReachedBy(rows0, pairs, p, keys, |keys|, k)
    {
      TargetsReached(rows, keys[n], pairs, p, k);
      MoreRowsReach(rows, rows0, pairs, p, keys[n], k);
      if k !in called0 && k in called {
        var j :| 0 <= j < n && Reaches(rows0, pairs, p, keys[j], k);
        assert Reaches(rows0, pairs, p, keys[j], k);
      }
    }
  }

  lemma {:induction false} ProgressMeans(
      rows0: seq<Row>, called0: set<Key>, rows: seq<Row>, called: set<Key>, pairs: map<int, Pairs.Pair>,
      p: Platform, keys: seq<Key>)
    requires Progress(rows0, called0, rows, called, pairs, p, keys, |keys|)
    ensures forall k | k in called :: k in called0 || ReachedBy(rows0, pairs, p, keys, |keys|, k)
    ensures Proper(rows0, keys, p) ==> forall k | ReachedBy(rows0, pairs, p, keys, |keys|, k) :: k in called
  {
    hide ReachedBy;
    hide Proper;
    hide UsedUp;
  }

  lemma {:induction false} NothingDeleted(s: State, keys: seq<Key>, selfBot: bool)
    ensures keys[..0] == [] && keys[0..] == keys && KeySet([]) == {} && After(s, [], selfBot) == Some(s)
    ensures keys[|keys|..] == [] && keys[..|keys|] == keys
  {
  }

  lemma {:induction false} KeySetMore(keys: seq<Key>, i: nat)
    requires i < |keys|
    ensures KeySet(keys[..i + 1]) == KeySet(keys[..i]) + {keys[i]}
  {
  }

  lemma {:induction false} NoHits(s: State, hits: seq<Hit>, pairs: map<int, Pairs.Pair>, p: Platform, selfBot: bool)
    ensures hits[..0] == [] && hits[0..] == hits && AllTargets([], pairs, p) == {} && After(s, [], selfBot) == Some(s)
    ensures hits[|hits|..] == [] && hits[..|hits|] == hits
  {
  }

  lemma {:induction false} RowsAfterNothing(rows: seq<Row>, pairs: map<int, Pairs.Pair>, p: Platform)
    ensures RowsAfter(rows, rows, [], pairs, p)
  {
  }

  lemma {:induction false} RowsAfterMore(
      rows0: seq<Row>, rows: seq<Row>, rows': seq<Row>, hits: seq<Hit>, j: nat, pairs: map<int, Pairs.Pair>,
      p: Platform)
    requires j < |hits| && RowsAfter(rows0, rows, hits[..j], pairs, p)
    requires rows' == rows || (Served(hits[j], pairs, p) && rows' == Without(rows, hits[j].row))
    ensures RowsAfter(rows0, rows', hits[..j + 1], pairs, p)
  {
    hide Served;
    hide Without;
    assert hits[..j + 1] == hits[..j] + [hits[j]];
    forall row
      ensures row in rows' ==> row in rows
      ensures row in rows && row !in rows' ==> Served(hits[j], pairs, p) && row.id == hits[j].row
    {
      WithoutExact(rows, hits[j].row, row);
    }
  }

  lemma {:induction false} RowsAfterAll(
      rows0: seq<Row>, rows: seq<Row>, hits: seq<Hit>, n: nat, pairs: map<int, Pairs.Pair>, p: Platform)
    requires n <= |hits| && RowsAfter(rows0, rows, hits[..n], pairs, p)
    ensures RowsAfter(rows0, rows, hits, pairs, p)
  {
    hide Served;
    assert forall h | h in hits[..n] :: h in hits;
  }

  lemma {:induction false} TargetsMonotone(hits: seq<Hit>, n: nat, pairs: map<int, Pairs.Pair>, p: Platform)
    requires n <= |hits|
    ensures AllTargets(hits[..n], pairs, p) <= AllTargets(hits, pairs, p)
  {
    hide AllTargets;
    hide Target;
    forall k | k in AllTargets(hits[..n], pairs, p)
      ensures k in AllTargets(hits, pairs, p)
    {
      AllTargetsExact(hits[..n], pairs, p, k);
      AllTargetsExact(hits, pairs, p, k);
    }
  }

  lemma {:induction false} ReachedMore(
      rows: seq<Row>, pairs: map<int, Pairs.Pair>, p: Platform, keys: seq<Key>, n: nat)
    requires n < |keys|
    ensures forall k :: ReachedBy(rows, pairs, p, keys, n + 1, k) <==>
                        ReachedBy(rows, pairs, p, keys, n, k) || Reaches(rows, pairs, p, keys[n], k)
  {
    hide Reaches;
    forall k
      ensures ReachedBy(rows, pairs, p, keys, n + 1, k) <==>
              ReachedBy(rows, pairs, p, keys, n, k) || Reaches(rows, pairs, p, keys[n], k)
    {
      if ReachedBy(rows, pairs, p, keys, n, k) {
        var j :| 0 <= j < n && Reaches(rows, pairs, p, keys[j], k);
        assert Reaches(rows, pairs, p, keys[j], k);
      }
    }
  }

  lemma {:induction false} TargetsMore(hits: seq<Hit>, j: nat, pairs: map<int, Pairs.Pair>, p: Platform)
    requires j < |hits|
    ensures AllTargets(hits[..j + 1], pairs, p) == AllTargets(hits[..j], pairs, p) + Target(hits[j], pairs, p)
  {
    assert hits[..j + 1][..j] == hits[..j];
  }

  function KeySet(keys: seq<Key>): set<Key>
  {
    set k | k in keys
  }

  lemma {:induction false} KeptMore(keys: seq<Key>, j: nat, ignore: set<Key>)
    requires j < |keys|
    ensures keys[..j + 1] == keys[..j] + [keys[j]]
    ensures Kept(keys[..j + 1], ignore) ==
            if keys[j] in ignore then Kept(keys[..j], ignore) else Kept(keys[..j], ignore) + [keys[j]]
  {
    assert keys[..j + 1][..j] == keys[..j];
  }

  class DeleteSyncEngine {
    const guard: LoopGuard
    const links: MapEngine
    const selfBot: bool
    var tgQueue: seq<seq<Key>>
    var baleQueue: seq<seq<Key>>
    /** The messages on the platforms. */
    var live: set<Key>
    ghost var world: State

    ghost predicate Valid()
      reads this, guard, links
    {
      && world.rows == links.rows && world.live == live
      && world.tgQueue == tgQueue && world.baleQueue == baleQueue
      && forall k :: guard.Ignores(k) <==> k in world.ignore
    }

    constructor (guard: LoopGuard, links: MapEngine, selfBot: bool, live: set<Key>, ghost world: State)
      requires world.tgQueue == [] && world.baleQueue == [] && world.rows == links.rows && world.live == live
      requires forall k :: guard.Ignores(k) <==> k in world.ignore
      ensures Valid() && this.world == world && this.guard == guard && this.links == links && this.selfBot == selfBot
    {
      this.guard, this.links, this.selfBot := guard, links, selfBot;
      tgQueue, baleQueue := [], [];
      this.live, this.world := live, world;
    }

    /** `on_tg_delete`, `on_bale_delete` for the reported deletion `i`. */
    method OnDelete(ghost i: nat, p: Platform, keys: seq<Key>)
      requires Valid() && i < |world.inflight| && world.inflight[i].p == p && world.inflight[i].keys == keys
      requires Distinct(keys)
      modifies this, guard
      ensures Valid() && world == Next(old(world), Deliver(i), selfBot)
    {
      ghost var ignored := world.ignore;
      assert Kept(keys[..0], ignored) == [];
      hide Kept;
      var ids: seq<Key> := [];
      for j := 0 to |keys|
        modifies guard
        invariant ids == Kept(keys[..j], ignored)
        invariant forall k :: guard.Ignores(k) <==> k in ignored && k !in keys[..j]
      {
        KeptMore(keys, j, ignored);
        var echo := guard.Consume(keys[j]);
        if !echo {
          ids := ids + [keys[j]];
        }
      }
      assert keys[..|keys|] == keys;
      if ids != [] {
        if p == Tg {
          tgQueue := tgQueue + [ids];
        } else {
          baleQueue := baleQueue + [ids];
        }
      }
      world := Next(world, Deliver(i), selfBot);
    }

    /** `suppress`, just before the call. */
    method Suppress(p: Platform, o: Hit)
      requires Valid() && Enabled(world, Ask(p)) && world.WorkerOf(p).hits[0] == o
      modifies this, guard
      ensures Valid() && world == Next(old(world), Ask(p), selfBot)
      ensures world.WorkerOf(p) ==
              old(world).WorkerOf(p).(hits := old(world).WorkerOf(p).hits[1..], call := Some(Call(o, false)))
      ensures live == old(live) && world.rows == old(world).rows
      ensures world.called == old(world).called + {o.end} && world.spent == old(world).spent
    {
      if Reports(o.end.platform, selfBot) {
        guard.Suppress(o.end);
      }
      world := Next(world, Ask(p), selfBot);
    }

    /**
     The delete call to the other platform. It reports success exactly when it takes effect,
     except that on the Bale side an exception may also follow the effect.
     */
    method CallDelete(p: Platform, hit: Hit, fate: Fate) returns (answer: Fate, ghost steps: seq<Step>)
      requires Valid() && CallOf(world, p) == Some(Call(hit, false))
      requires p == Bale ==> fate != RaisedAfter
      modifies this
      ensures Valid() && After(old(world), steps, selfBot) == Some(world)
      ensures world.WorkerOf(p) ==
              old(world).WorkerOf(p).(call := Some(Call(hit, answer == Done || answer == RaisedAfter)))
      ensures p == Bale ==> answer != RaisedAfter
      ensures world.called == old(world).called && world.spent == old(world).spent && world.rows == old(world).rows
    {
      if hit.end in live && (fate == Done || fate == RaisedAfter) {
        live := live - {hit.end};
        world := Next(world, Effect(p), selfBot);
        return fate, [Effect(p)];
      }
      return if fate == RaisedBefore then RaisedBefore else Refused, [];
    }

    /** What follows the call: on success forget the row; on a caught failure release it as well. */
    method Conclude(p: Platform, o: Hit, answer: Fate) returns (raised: bool, ghost step: Step)
      requires Valid() && CallOf(world, p) == Some(Call(o, answer == Done || answer == RaisedAfter))
      requires p == Bale ==> answer != RaisedAfter
      modifies this, guard, links
      ensures Valid() && Enabled(old(world), step) && world == Next(old(world), step, selfBot)
      ensures world.WorkerOf(p) == if raised then Idle else old(world).WorkerOf(p).(call := None)
      ensures raised ==> p == Tg
      ensures world.called == old(world).called && world.spent == old(world).spent
      ensures world.rows == if raised then old(world).rows else Without(old(world).rows, o.row)
    {
      if answer == Done {
        links.RemoveRow(o.row);
        raised, step := false, ReturnOk(p);
      } else if answer == Refused || p == Bale {
        guard.Release(o.end);
        links.RemoveRow(o.row);
        raised, step := false, ReturnFail(p);
      } else {
        raised, step := true, Abort(p);
      }
      world := Next(world, step, selfBot);
    }

    /** One turn of the inner loop for a row this direction serves. */
    method DeleteCopy(p: Platform, o: Hit, fate: Fate) returns (raised: bool, ghost steps: seq<Step>)
      requires Valid() && Enabled(world, Ask(p)) && world.WorkerOf(p).hits[0] == o
      requires p == Bale ==> fate != RaisedAfter
      modifies this, guard, links
      ensures Valid() && After(old(world), steps, selfBot) == Some(world)
      ensures world.WorkerOf(p) == if raised then Idle
              else old(world).WorkerOf(p).(hits := old(world).WorkerOf(p).hits[1..])
      ensures raised ==> p == Tg
      ensures world.called == old(world).called + {o.end} && world.spent == old(world).spent
      ensures world.rows == if raised then old(world).rows else Without(old(world).rows, o.row)
    {
      hide Next;
      hide Enabled;
      ghost var s0 := world;
      AskLeavesIdleCall(world, p);
      Suppress(p, o);
      var answer, called := CallDelete(p, o, fate);
      ghost var s1 := world;
      AfterConcat(s0, [Ask(p)], called, selfBot);
      ghost var last;
      raised, last := Conclude(p, o, answer);
      steps := [Ask(p)] + called + [last];
    }

    /** One turn of the inner loop: a row this direction does not serve is passed over. */
    method Turn(p: Platform, o: Hit, pairs: map<int, Pairs.Pair>, fate: Fate)
      returns (raised: bool, ghost steps: seq<Step>)
      requires Valid() && world.WorkerOf(p).Working? && world.WorkerOf(p).call == None
      requires world.WorkerOf(p).hits != [] && world.WorkerOf(p).hits[0] == o
      requires p == Bale ==> fate != RaisedAfter
      modifies this, guard, links
      ensures Valid() && After(old(world), steps, selfBot) == Some(world)
      ensures world.WorkerOf(p) == if raised then Idle
              else old(world).WorkerOf(p).(hits := old(world).WorkerOf(p).hits[1..])
      ensures raised ==> p == Tg
      ensures world.called == old(world).called + Target(o, pairs, p) && world.spent == old(world).spent
      ensures world.rows ==
              if !raised && Served(o, pairs, p) then Without(old(world).rows, o.row) else old(world).rows
    {
      if o.end.platform != Other(p) || !Serves(pairs, o.pair, p) {
        world := Next(world, Pass(p), selfBot);
        return false, [Pass(p)];
      }
      hide After;
      raised, steps := DeleteCopy(p, o, fate);
    }

    /** The loop over the counterparts of one deleted message. */
    method DeleteCopies(
        p: Platform, todo: seq<Key>, hits: seq<Hit>, pairs: map<int, Pairs.Pair>, fates: nat -> Fate, at: nat)
      returns (raised: bool, ghost steps: seq<Step>)
      requires Valid() && world.WorkerOf(p) == Working(todo, hits, None)
      requires p == Bale ==> forall i :: fates(i) != RaisedAfter
      modifies this, guard, links
      ensures Valid() && After(old(world), steps, selfBot) == Some(world)
      ensures world.WorkerOf(p) == if raised then Idle else Working(todo, [], None)
      ensures raised ==> p == Tg
      ensures !raised ==> world.called == old(world).called + AllTargets(hits, pairs, p)
      ensures world.called <= old(world).called + AllTargets(hits, pairs, p)
      ensures RowsAfter(old(world).rows, world.rows, hits, pairs, p)
      ensures world.spent == old(world).spent
    {
      hide *;
      NoHits(world, hits, pairs, p, selfBot);
      RowsAfterNothing(world.rows, pairs, p);
      ghost var s0 := world;
      steps := [];
      for j := 0 to |hits|
        invariant Valid() && After(s0, steps, selfBot) == Some(world)
        invariant world.WorkerOf(p) == Working(todo, hits[j..], None)
        invariant world.called == s0.called + AllTargets(hits[..j], pairs, p) && world.spent == s0.spent
        invariant RowsAfter(s0.rows, world.rows, hits[..j], pairs, p)
      {
        assert hits[j..][0] == hits[j] && hits[j..][1..] == hits[j + 1..];
        TargetsMore(hits, j, pairs, p);
        ghost var more, rows := [], world.rows;
        raised, more := Turn(p, hits[j], pairs, fates(at + j));
        AfterConcat(s0, steps, more, selfBot);
        steps := steps + more;
        RowsAfterMore(s0.rows, rows, world.rows, hits, j, pairs, p);
        if raised {
          TargetsMonotone(hits, j + 1, pairs, p);
          RowsAfterAll(s0.rows, world.rows, hits, j + 1, pairs, p);
          return;
        }
      }
      raised := false;
    }

    /** The look-up of the next deleted message. */
    method BeginId(p: Platform, mid: Key) returns (hits: seq<Hit>)
      requires Valid() && world.WorkerOf(p).Working? && world.WorkerOf(p).call == None && world.WorkerOf(p).hits == []
      requires world.WorkerOf(p).todo != [] && world.WorkerOf(p).todo[0] == mid
      modifies this
      ensures Valid() && After(old(world), [NextId(p)], selfBot) == Some(world)
      ensures world.WorkerOf(p) == Working(old(world).WorkerOf(p).todo[1..], hits, None)
      ensures hits == OtherSide(old(world).rows, mid, None)
      ensures world.spent == old(world).spent + {mid}
      ensures world.rows == old(world).rows && world.called == old(world).called
    {
      hits := links.Lookup(mid, None);
      world := Next(world, NextId(p), selfBot);
    }

    method End(p: Platform)
      requires Valid() && world.WorkerOf(p) == Working([], [], None)
      modifies this
      ensures Valid() && After(old(world), [Finish(p)], selfBot) == Some(world)
      ensures world.WorkerOf(p) == Idle && world.spent == old(world).spent && world.called == old(world).called
    {
      world := Next(world, Finish(p), selfBot);
    }

    /** `process_tg_delete` (`p` is Telegram) and `process_bale_delete`, run on a job the worker has taken. */
    method ProcessDelete(p: Platform, keys: seq<Key>, pairs: map<int, Pairs.Pair>, fates: nat -> Fate)
      returns (raised: bool, ghost steps: seq<Step>)
      requires Valid() && world.WorkerOf(p) == Working(keys, [], None)
      requires p == Bale ==> forall i :: fates(i) != RaisedAfter
      modifies this, guard, links
      ensures Valid() && After(old(world), steps, selfBot) == Some(world)
      ensures world.WorkerOf(p) == Idle
      ensures raised ==> p == Tg
      ensures !raised ==> world.spent == old(world).spent + KeySet(keys)
      ensures forall k | k in world.called ::
                k in old(world).called || ReachedBy(old(world).rows, pairs, p, keys, |keys|, k)
      ensures !raised && Proper(old(world).rows, keys, p) ==>
                forall k | ReachedBy(old(world).rows, pairs, p, keys, |keys|, k) :: k in world.called
    {
      hide *;
      NothingDeleted(world, keys, selfBot);
      ProgressStarts(world.rows, world.called, pairs, p, keys);
      ghost var s0 := world;
      var at: nat := 0;
      steps := [];
      for i := 0 to |keys|
        invariant Valid() && After(s0, steps, selfBot) == Some(world)
        invariant world.WorkerOf(p) == Working(keys[i..], [], None)
        invariant world.spent == s0.spent + KeySet(keys[..i])
        invariant Progress(s0.rows, s0.called, world.rows, world.called, pairs, p, keys, i)
      {
        assert keys[i..][0] == keys[i] && keys[i..][1..] == keys[i + 1..];
        KeySetMore(keys, i);
        var hits := BeginId(p, keys[i]);
        AfterConcat(s0, steps, [NextId(p)], selfBot);
        steps := steps + [NextId(p)];
        ghost var more, rows, called := [], world.rows, world.called;
        raised, more := DeleteCopies(p, keys[i + 1..], hits, pairs, fates, at);
        AfterConcat(s0, steps, more, selfBot);
        steps := steps + more;
        if raised {
          ProgressBroken(s0.rows, s0.called, rows, called, world.called, pairs, p, keys, i);
          return;
        }
        ProgressOn(s0.rows, s0.called, rows, called, world.rows, world.called, pairs, p, keys, i);
        at := at + |hits|;
      }
      raised := false;
      ProgressMeans(s0.rows, s0.called, world.rows, world.called, pairs, p, keys);
      End(p);
      AfterConcat(s0, steps, [Finish(p)], selfBot);
      steps := steps + [Finish(p)];
    }

    lemma {:induction false} AskLeavesIdleCall(s: State, p: Platform)
      requires Enabled(s, Ask(p))
      ensures s.WorkerOf(p).Working? && s.WorkerOf(p).call == None && s.WorkerOf(p).hits != []
    {
    }
  }

  lemma {:induction false} AfterConcat(s: State, a: seq<Step>, b: seq<Step>, selfBot: bool)
    requires After(s, a, selfBot).Some?
    ensures After(s, a + b, selfBot) == After(After(s, a, selfBot).value, b, selfBot)
    decreases |b|
  {
    if b == [] {
      assert a + b == a;
    } else {
      var init := b[..|b| - 1];
      AfterConcat(s, a, init, selfBot);
      assert (a + b)[..|a + b| - 1] == a + init;
      assert (a + b)[|a + b| - 1] == b[|b| - 1];
    }
  }
}
