/**
 AlbumCollector (bridge/transfer/albums.py): messages of an album are buffered under its
 key; the first one arms a timer, and when it fires the batch is sorted and queued.
 The `pending` dictionary is kept in insertion order, as Python does.
 */
module Albums {
  import opened Sequences
  import Sorting

  datatype Album<K, T> = Album(key: K, items: seq<T>)

  /** The buffer, the keys with an armed timer, and the batches queued so far with their keys. */
  datatype Collector<K, T> = Collector(pending: seq<Album<K, T>>, timers: set<K>, batches: seq<Album<K, T>>)

  /** The position of `key`, or the length when it is absent. */
  function Find<K(==), T>(pending: seq<Album<K, T>>, key: K): (i: nat)
    ensures i <= |pending|
    ensures i < |pending| ==> pending[i].key == key
    ensures forall j | 0 <= j < i :: pending[j].key != key
  {
    FirstIndex(pending, (a: Album<K, T>) => a.key == key)
  }

  /** `pending.setdefault(key, []).append(item)` */
  function Fed<K(==), T>(pending: seq<Album<K, T>>, key: K, item: T): seq<Album<K, T>>
  {
    var i := Find(pending, key);
    if i == |pending| then pending + [Album(key, [item])]
    else pending[i := Album(key, pending[i].items + [item])]
  }

  /** `pending.pop(key, [])` */
  function Popped<K(==), T>(pending: seq<Album<K, T>>, key: K): (seq<T>, seq<Album<K, T>>)
  {
    var i := Find(pending, key);
    if i == |pending| then ([], pending) else (pending[i].items, RemoveAt(pending, i))
  }

  function FeedStep<K(==), T>(c: Collector<K, T>, key: K, item: T): Collector<K, T>
  {
    c.(pending := Fed(c.pending, key, item),
       timers := if Find(c.pending, key) == |c.pending| then c.timers + {key} else c.timers)
  }

  function FlushStep<K(==), T>(c: Collector<K, T>, key: K, le: (T, T) -> bool): Collector<K, T>
  {
    var (items, rest) := Popped(c.pending, key);
    Collector(rest, c.timers - {key},
              if items == [] then c.batches else c.batches + [Album(key, Sorting.StableSort(le, items))])
  }

  class AlbumCollector<K(==), T> {
    const le: (T, T) -> bool
    var pending: seq<Album<K, T>>
    var tasks: set<K>
    var queue: seq<seq<T>>
    /** The queued batches with the keys they were collected under. */
    ghost var batches: seq<Album<K, T>>

    ghost predicate Valid()
      reads this
    {
      && |batches| == |queue|
      && (forall i | 0 <= i < |queue| :: batches[i].items == queue[i])
      && (forall i | 0 <= i < |pending| :: pending[i].items != [])
    }

    ghost function State(): Collector<K, T>
      requires Valid()
      reads this
    {
      Collector(pending, tasks, batches)
    }

    constructor (le: (T, T) -> bool)
      ensures Valid() && State() == Collector([], {}, []) && this.le == le
    {
      this.le := le;
      pending, tasks, queue, batches := [], {}, [], [];
    }

    method Feed(key: K, item: T)
      requires Valid()
      modifies this
      ensures Valid() && State() == FeedStep(old(State()), key, item)
    {
      var i := Find(pending, key);
      var list := if i == |pending| then [] else pending[i].items;
      var items := list + [item];
      assert list == [] ==> items == [item];
      if i == |pending| {
        pending := pending + [Album(key, items)];
      } else {
        pending := pending[i := Album(key, items)];
      }
      if |items| == 1 {
        tasks := tasks + {key};
      }
    }

    /** What runs when the timer of `key` fires. */
    method Flush(key: K)
      requires Valid()
      modifies this
      ensures Valid() && State() == FlushStep(old(State()), key, le)
    {
      var (items, rest) := Popped(pending, key);
      pending := rest;
      tasks := tasks - {key};
      if items != [] {
        var batch := Sorting.StableSort(le, items);
        queue := queue + [batch];
        batches := batches + [Album(key, batch)];
      }
    }
  }

  // ------------------------------------------------ runs

  datatype Event<K, T> = Feed(key: K, item: T) | Timer(key: K)

  ghost predicate DistinctKeys<K, T>(pending: seq<Album<K, T>>)
  {
    forall i, j | 0 <= i < j < |pending| :: pending[i].key != pending[j].key
  }

  /** Exactly the pending keys have an armed timer, and nothing pending is empty. */
  ghost predicate Good<K(!new), T>(c: Collector<K, T>)
  {
    && DistinctKeys(c.pending)
    && (forall k :: k in c.timers <==> exists i :: 0 <= i < |c.pending| && c.pending[i].key == k)
    && (forall i | 0 <= i < |c.pending| :: c.pending[i].items != [])
  }

  function Apply<K(==), T>(c: Collector<K, T>, e: Event<K, T>, le: (T, T) -> bool): Collector<K, T>
  {
    match e
    case Feed(key, item) => FeedStep(c, key, item)
    case Timer(key) => FlushStep(c, key, le)
  }

  function Run<K(==), T>(events: seq<Event<K, T>>, le: (T, T) -> bool): Collector<K, T>
  {
    if events == [] then Collector([], {}, [])
    else Apply(Run(events[..|events| - 1], le), events[|events| - 1], le)
  }

  /** A timer only fires while it is armed. */
  predicate TimersArmed<K(==), T>(events: seq<Event<K, T>>, le: (T, T) -> bool)
  {
    events == [] ||
    (var init, e := events[..|events| - 1], events[|events| - 1];
     TimersArmed(init, le) && (e.Timer? ==> e.key in Run(init, le).timers))
  }

  function ItemsUnder<K(==), T>(a: Album<K, T>, key: K): multiset<T>
  {
    if a.key == key then multiset(a.items) else multiset{}
  }

  /** The items an album list holds under `key`. */
  function Under<K(==), T>(albums: seq<Album<K, T>>, key: K): multiset<T>
  {
    if albums == [] then multiset{} else Under(albums[..|albums| - 1], key) + ItemsUnder(albums[|albums| - 1], key)
  }

  /** The items fed under `key`. */
  function FedUnder<K(==), T>(events: seq<Event<K, T>>, key: K): multiset<T>
  {
    if events == [] then multiset{}
    else
      var e := events[|events| - 1];
      FedUnder(events[..|events| - 1], key) + (if e.Feed? && e.key == key then multiset{e.item} else multiset{})
  }

  lemma {:induction false} UnderAppend<K, T>(albums: seq<Album<K, T>>, a: Album<K, T>, key: K)
    ensures Under(albums + [a], key) == Under(albums, key) + ItemsUnder(a, key)
  {
    assert (albums + [a])[..|albums|] == albums;
  }

  /** Replacing or removing one album changes what is held under its key only by that album. */
  lemma {:induction false} UnderSplit<K, T>(albums: seq<Album<K, T>>, i: nat, key: K)
    requires i < |albums|
    ensures Under(albums, key) ==
            Under(RemoveAt(albums, i), key) + ItemsUnder(albums[i], key)
    decreases |albums|
  {
    var n := |albums|;
    var init, last := albums[..n - 1], albums[n - 1];
    if i == n - 1 {
      RemoveLast(albums);
    } else {
      hide Under;
      RemoveBeforeLast(albums, i);
      hide RemoveAt;
      UnderAppend(init, last, key);
      UnderSplit(init, i, key);
      UnderAppend(RemoveAt(init, i), last, key);
      SumsSwap(Under(RemoveAt(init, i), key), ItemsUnder(albums[i], key), ItemsUnder(last, key));
    }
  }

  lemma {:induction false} FedConserves<K, T>(pending: seq<Album<K, T>>, key: K, item: T, k: K)
    ensures Under(Fed(pending, key, item), k) == Under(pending, k) + (if k == key then multiset{item} else multiset{})
  {
    var i := Find(pending, key);
    if i == |pending| {
      UnderAppend(pending, Album(key, [item]), k);
    } else {
      var pending' := Fed(pending, key, item);
      UnderSplit(pending, i, k);
      UnderSplit(pending', i, k);
      assert RemoveAt(pending', i) == RemoveAt(pending, i);
      assert multiset(pending[i].items + [item]) == multiset(pending[i].items) + multiset{item};
    }
  }

  lemma {:induction false} PoppedConserves<K, T>(pending: seq<Album<K, T>>, key: K, k: K)
    ensures Under(pending, k) ==
            Under(Popped(pending, key).1, k) + (if k == key then multiset(Popped(pending, key).0) else multiset{})
  {
    var i := Find(pending, key);
    if i < |pending| {
      UnderSplit(pending, i, k);
    }
  }

  lemma {:induction false} FeedKeepsGood<K(!new), T>(c: Collector<K, T>, key: K, item: T)
    requires Good(c)
    ensures Good(FeedStep(c, key, item))
  {
    var c' := FeedStep(c, key, item);
    var i := Find(c.pending, key);
    assert forall j | 0 <= j < |c.pending| :: c'.pending[j].key == c.pending[j].key;
    forall k
      ensures k in c'.timers <==> exists j :: 0 <= j < |c'.pending| && c'.pending[j].key == k
    {
      if k == key {
        assert c'.pending[i].key == key;
      } else if exists j :: 0 <= j < |c.pending| && c.pending[j].key == k {
        var j :| 0 <= j < |c.pending| && c.pending[j].key == k;
        assert c'.pending[j].key == k;
      }
    }
  }

  lemma {:induction false} RemoveKeepsKeys<K(!new), T>(pending: seq<Album<K, T>>, i: nat, k: K)
    requires i < |pending| && DistinctKeys(pending)
    ensures (exists j :: 0 <= j < |pending| && pending[j].key == k && k != pending[i].key)
            <==> exists j :: 0 <= j < |RemoveAt(pending, i)| && RemoveAt(pending, i)[j].key == k
  {
    var rest := RemoveAt(pending, i);
    if j :| 0 <= j < |pending| && pending[j].key == k && k != pending[i].key {
      assert rest[if j < i then j else j - 1].key == k;
    }
    if j :| 0 <= j < |rest| && rest[j].key == k {
      assert pending[if j < i then j else j + 1].key == k;
    }
  }

  lemma {:induction false} TimerKeepsGood<K(!new), T>(c: Collector<K, T>, key: K, le: (T, T) -> bool)
    requires Good(c) && key in c.timers
    ensures Good(FlushStep(c, key, le))
    ensures Popped(c.pending, key).0 != []
  {
    var i := Find(c.pending, key);
    assert i < |c.pending|;
    var rest := RemoveAt(c.pending, i);
    assert forall j | 0 <= j < |rest| :: rest[j] == c.pending[if j < i then j else j + 1];
    forall k
      ensures k in c.timers - {key} <==> exists j :: 0 <= j < |rest| && rest[j].key == k
    {
      RemoveKeepsKeys(c.pending, i, k);
    }
  }

  /** Every queued batch is non-empty and sorted. */
  ghost predicate SortedBatches<K, T>(batches: seq<Album<K, T>>, le: (T, T) -> bool)
  {
    forall b | b in batches :: b.items != [] && Sorting.Sorted(le, b.items)
  }

  lemma {:induction false} FlushSortsBatches<K, T(!new)>(c: Collector<K, T>, key: K, le: (T, T) -> bool, k: K)
    requires Sorting.TotalPreorder(le) && SortedBatches(c.batches, le)
    ensures SortedBatches(FlushStep(c, key, le).batches, le)
    ensures Under(FlushStep(c, key, le).batches, k) ==
            Under(c.batches, k) + (if k == key then multiset(Popped(c.pending, key).0) else multiset{})
  {
    hide Popped;
    hide Under;
    hide SortedBatches;
    var items := Popped(c.pending, key).0;
    if items != [] {
      OneMoreBatch(c.batches, key, items, le, k);
    }
  }

  lemma {:induction false} OneMoreBatch<K, T(!new)>(
      batches: seq<Album<K, T>>, key: K, items: seq<T>, le: (T, T) -> bool, k: K)
    requires Sorting.TotalPreorder(le) && SortedBatches(batches, le) && items != []
    ensures var more := batches + [Album(key, Sorting.StableSort(le, items))];
            && SortedBatches(more, le)
            && Under(more, k) == Under(batches, k) + (if k == key then multiset(items) else multiset{})
  {
    Sorting.StableSortCorrect(le, items);
    hide Sorting.TotalPreorder;
    hide Sorting.Sorted;
    hide Sorting.StableSort;
    UnderAppend(batches, Album(key, Sorting.StableSort(le, items)), k);
    hide Under;
  }

  /** What was fed under `key` is what is pending under it plus what was queued under it. */
  ghost predicate Conserved<K, T>(events: seq<Event<K, T>>, c: Collector<K, T>, key: K)
  {
    FedUnder(events, key) == Under(c.pending, key) + Under(c.batches, key)
  }

  lemma {:induction false} EventConserves<K, T(!new)>(
      init: seq<Event<K, T>>, e: Event<K, T>, c: Collector<K, T>, le: (T, T) -> bool, key: K)
    requires Sorting.TotalPreorder(le) && SortedBatches(c.batches, le) && Conserved(init, c, key)
    ensures SortedBatches(Apply(c, e, le).batches, le) && Conserved(init + [e], Apply(c, e, le), key)
  {
    hide Fed;
    hide Popped;
    hide Under;
    hide SortedBatches;
    hide Find;
    hide Sorting.StableSort;
    assert (init + [e])[..|init|] == init;
    match e
    case Feed(k, item) =>
      FedConserves(c.pending, k, item, key);
      SumsSwap(Under(c.pending, key), Under(c.batches, key), if k == key then multiset{item} else multiset{});
    case Timer(k) =>
      var popped := if k == key then multiset(Popped(c.pending, k).0) else multiset{};
      var rest := Under(Popped(c.pending, k).1, key);
      PoppedConserves(c.pending, k, key);
      FlushSortsBatches(c, k, le, key);
      SumsSwap(rest, popped, Under(c.batches, key));
      SumsAssociate(rest, Under(c.batches, key), popped);
  }

  /**
   Over any interleaving of arrivals and timers: the armed timers are those of the pending
   albums, and for every key what was fed under it is what is pending under it plus what
   was queued under it, in sorted, non-empty batches.
   */
  lemma {:induction false} AlbumConservation<K(!new), T(!new)>(events: seq<Event<K, T>>, le: (T, T) -> bool, key: K)
    requires Sorting.TotalPreorder(le) && TimersArmed(events, le)
    ensures Good(Run(events, le))
    ensures FedUnder(events, key) == Under(Run(events, le).pending, key) + Under(Run(events, le).batches, key)
    ensures SortedBatches(Run(events, le).batches, le)
  {
    hide Good;
    hide Under;
    hide FedUnder;
    hide SortedBatches;
    hide FeedStep;
    hide FlushStep;
    if events == [] {
      NothingFed(le, key);
    } else {
      var init, e := events[..|events| - 1], events[|events| - 1];
      AlbumConservation(init, le, key);
      var c := Run(init, le);
      assert init + [e] == events;
      EventConserves(init, e, c, le, key);
      match e
      case Feed(k, item) => FeedKeepsGood(c, k, item);
      case Timer(k) => TimerKeepsGood(c, k, le);
    }
  }

  lemma {:induction false} NothingFed<K(!new), T(!new)>(le: (T, T) -> bool, key: K)
    ensures var c := Run<K, T>([], le);
            Good(c) && Conserved([], c, key) && SortedBatches(c.batches, le)
  {
  }
}
