/**
 The library sort the bridge relies on (`list.sort(key=...)`): a stable sort by a
 total preorder, here insertion sort, with the facts its callers use.
 */
module Sorting {
  import opened Sequences

  ghost predicate TotalPreorder<T(!new)>(le: (T, T) -> bool)
  {
    && (forall a, b :: le(a, b) || le(b, a))
    && (forall a, b, c :: le(a, b) && le(b, c) ==> le(a, c))
  }

  ghost predicate Sorted<T>(le: (T, T) -> bool, s: seq<T>)
  {
    forall i, j | 0 <= i < j < |s| :: le(s[i], s[j])
  }

  /** Puts `x` behind every element that is not greater than it. */
  function Insert<T>(le: (T, T) -> bool, s: seq<T>, x: T): seq<T>
  {
    if s == [] || le(s[|s| - 1], x) then s + [x]
    else Insert(le, s[..|s| - 1], x) + [s[|s| - 1]]
  }

  function StableSort<T>(le: (T, T) -> bool, s: seq<T>): seq<T>
  {
    if s == [] then [] else Insert(le, StableSort(le, s[..|s| - 1]), s[|s| - 1])
  }

  /** Inserting adds one element and keeps the rest. */
  lemma {:induction false} InsertKeeps<T>(le: (T, T) -> bool, s: seq<T>, x: T)
    ensures multiset(Insert(le, s, x)) == multiset(s) + multiset{x}
  {
    if s != [] && !le(s[|s| - 1], x) {
      InsertKeeps(le, s[..|s| - 1], x);
      assert s == s[..|s| - 1] + [s[|s| - 1]];
    }
  }

  lemma {:induction false} InsertCorrect<T(!new)>(le: (T, T) -> bool, s: seq<T>, x: T)
    requires TotalPreorder(le) && Sorted(le, s)
    ensures Sorted(le, Insert(le, s, x))
    ensures forall y | y in Insert(le, s, x) :: y in s || y == x
  {
    if s == [] {
    } else if le(s[|s| - 1], x) {
      forall i | 0 <= i < |s|
        ensures le(s[i], x)
      {
        assert i < |s| - 1 ==> le(s[i], s[|s| - 1]);
      }
    } else {
      var init, last := s[..|s| - 1], s[|s| - 1];
      assert le(x, last);
      InsertCorrect(le, init, x);
      assert s == init + [last];
      var r := Insert(le, init, x);
      forall i | 0 <= i < |r|
        ensures le(r[i], last)
      {
        assert r[i] in init || r[i] == x;
      }
    }
  }

  /** Sorting orders the list and keeps every element with its multiplicity. */
  lemma {:induction false} StableSortCorrect<T(!new)>(le: (T, T) -> bool, s: seq<T>)
    requires TotalPreorder(le)
    ensures Sorted(le, StableSort(le, s))
    ensures multiset(StableSort(le, s)) == multiset(s)
    ensures |StableSort(le, s)| == |s|
  {
    hide Sorted;
    hide TotalPreorder;
    hide Insert;
    if s == [] {
      NothingSorted(le);
    } else {
      var init, last := s[..|s| - 1], s[|s| - 1];
      StableSortCorrect(le, init);
      InsertCorrect(le, StableSort(le, init), last);
      InsertKeeps(le, StableSort(le, init), last);
      assert s == init + [last];
      SameLength(StableSort(le, s), s);
    }
  }

  lemma {:induction false} NothingSorted<T(!new)>(le: (T, T) -> bool)
    ensures StableSort(le, []) == [] && Sorted(le, [])
  {
  }

  lemma {:induction false} SameLength<T>(a: seq<T>, b: seq<T>)
    requires multiset(a) == multiset(b)
    ensures |a| == |b|
  {
    assert |multiset(a)| == |a| && |multiset(b)| == |b|;
  }

  lemma {:induction false} StableSortOfSorted<T(!new)>(le: (T, T) -> bool, s: seq<T>)
    requires Sorted(le, s)
    ensures StableSort(le, s) == s
  {
    hide Sorted;
    if s != [] {
      SortedInit(le, s);
      StableSortOfSorted(le, s[..|s| - 1]);
    }
  }

  lemma {:induction false} SortedInit<T(!new)>(le: (T, T) -> bool, s: seq<T>)
    requires Sorted(le, s) && s != []
    ensures var init, last := s[..|s| - 1], s[|s| - 1];
            Sorted(le, init) && Insert(le, init, last) == s
  {
    var init := s[..|s| - 1];
    assert init + [s[|s| - 1]] == s;
  }

  /** No two positions of `s` compare equal. */
  ghost predicate Strict<T>(le: (T, T) -> bool, s: seq<T>)
  {
    forall i, j | 0 <= i < j < |s| :: !(le(s[i], s[j]) && le(s[j], s[i]))
  }

  lemma {:induction false} SortedHead<T(!new)>(le: (T, T) -> bool, a: seq<T>, x: T)
    requires TotalPreorder(le) && Sorted(le, a) && x in a
    ensures le(a[0], x)
  {
    var i :| 0 <= i < |a| && a[i] == x;
    assert i == 0 ==> le(x, x);
  }

  lemma {:induction false} SameHead<T(!new)>(le: (T, T) -> bool, a: seq<T>, b: seq<T>)
    requires TotalPreorder(le) && Sorted(le, a) && Sorted(le, b) && Strict(le, a)
    requires a != [] && b != [] && a[0] in b && b[0] in a
    ensures a[0] == b[0]
  {
    hide TotalPreorder;
    SortedHead(le, a, b[0]);
    SortedHead(le, b, a[0]);
    var i :| 0 <= i < |a| && a[i] == b[0];
  }

  lemma {:induction false} SameTailMultiset<T>(a: seq<T>, b: seq<T>)
    requires a != [] && b != [] && a[0] == b[0] && multiset(a) == multiset(b)
    ensures multiset(a[1..]) == multiset(b[1..])
  {
    assert a == [a[0]] + a[1..] && b == [b[0]] + b[1..];
    assert multiset(a[1..]) == multiset(a) - multiset{a[0]};
    assert multiset(b[1..]) == multiset(b) - multiset{b[0]};
  }

  /** A sorted list without ties is the only sorted list of its elements. */
  lemma {:induction false} SortedUnique<T(!new)>(le: (T, T) -> bool, a: seq<T>, b: seq<T>)
    requires TotalPreorder(le) && Sorted(le, a) && Sorted(le, b)
    requires Strict(le, a)
    requires multiset(a) == multiset(b)
    ensures a == b
  {
    hide TotalPreorder;
    assert |a| == |multiset(a)| == |multiset(b)| == |b|;
    if a != [] {
      assert a[0] in multiset(a) && b[0] in multiset(b);
      SameHead(le, a, b);
      SameTailMultiset(a, b);
      SortedUnique(le, a[1..], b[1..]);
      assert a == [a[0]] + a[1..] && b == [b[0]] + b[1..];
    }
  }

  /**
   Sorting forgets the input order exactly when there are no ties to break: two lists
   with the same elements and pairwise different keys sort to the same list.
   */
  lemma {:induction false} SortIgnoresInputOrder<T(!new)>(le: (T, T) -> bool, a: seq<T>, b: seq<T>)
    requires TotalPreorder(le)
    requires multiset(a) == multiset(b)
    requires Strict(le, StableSort(le, a))
    ensures StableSort(le, a) == StableSort(le, b)
  {
    StableSortCorrect(le, a);
    StableSortCorrect(le, b);
    SortedUnique(le, StableSort(le, a), StableSort(le, b));
  }

  lemma {:induction false} ImageInsert<T, U>(le: (T, T) -> bool, s: seq<T>, x: T, f: T -> U)
    ensures Image(Insert(le, s, x), f) == Image(s, f) + multiset{f(x)}
  {
    if s == [] || le(s[|s| - 1], x) {
      ImageAppend(s, x, f);
    } else {
      var init, last := s[..|s| - 1], s[|s| - 1];
      ImageInsert(le, init, x, f);
      ImageAppend(Insert(le, init, x), last, f);
    }
  }

  /** Sorting loses and invents nothing, whatever the order. */
  lemma {:induction false} ImageSorted<T, U>(le: (T, T) -> bool, s: seq<T>, f: T -> U)
    ensures Image(StableSort(le, s), f) == Image(s, f)
  {
    if s != [] {
      var init, last := s[..|s| - 1], s[|s| - 1];
      ImageSorted(le, init, f);
      ImageInsert(le, StableSort(le, init), last, f);
    }
  }
}
