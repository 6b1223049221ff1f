/** Small facts about sequences shared by the other modules. */
module Sequences {

  datatype Option<+T> = None | Some(value: T)

  lemma {:induction false} SliceOfMiddle<T>(x: seq<T>, y: seq<T>, z: seq<T>)
    ensures |x| + |y| <= |x + y + z| && (x + y + z)[|x|..|x| + |y|] == y
  {
  }

  lemma {:induction false} Associate<T>(a: seq<T>, b: seq<T>, c: seq<T>, d: seq<T>)
    ensures a + b + c + d == a + (b + c + d)
  {
  }

  lemma {:induction false} AssociateThree<T>(a: seq<T>, b: seq<T>, c: seq<T>)
    ensures a + b + c == a + (b + c)
  {
  }

  /** `"".join(parts)`. */
  function Join(parts: seq<string>): string
  {
    if parts == [] then "" else Join(parts[..|parts| - 1]) + parts[|parts| - 1]
  }

  lemma {:induction false} JoinNothing()
    ensures Join([]) == ""
  {
  }

  lemma {:induction false} JoinAppend(parts: seq<string>, s: string)
    ensures Join(parts + [s]) == Join(parts) + s
  {
    assert (parts + [s])[..|parts|] == parts;
  }

  lemma {:induction false} JoinConcat(a: seq<string>, b: seq<string>)
    ensures Join(a + b) == Join(a) + Join(b)
  {
    if b == [] {
      assert a + b == a;
    } else {
      var init := b[..|b| - 1];
      assert a + b == (a + init) + [b[|b| - 1]];
      JoinConcat(a, init);
      assert Join(a) + (Join(init) + b[|b| - 1]) == (Join(a) + Join(init)) + b[|b| - 1];
    }
  }

  lemma {:induction false} JoinHead(parts: seq<string>)
    requires parts != []
    ensures Join(parts) == parts[0] + Join(parts[1..])
  {
    assert parts == [parts[0]] + parts[1..];
    JoinConcat([parts[0]], parts[1..]);
    assert Join([parts[0]]) == parts[0] by {
      assert [parts[0]] == [] + [parts[0]];
    }
  }

  /** Number of characters in all parts together. */
  function TotalLength(parts: seq<string>): nat
  {
    if parts == [] then 0 else TotalLength(parts[..|parts| - 1]) + |parts[|parts| - 1]|
  }

  lemma {:induction false} JoinLength(parts: seq<string>)
    ensures |Join(parts)| == TotalLength(parts)
  {
    if parts != [] {
      JoinLength(parts[..|parts| - 1]);
    }
  }

  /** `s` without its element at `i`. */
  function RemoveAt<T>(s: seq<T>, i: nat): (r: seq<T>)
    requires i < |s|
    ensures |r| == |s| - 1
  {
    s[..i] + s[i + 1..]
  }

  lemma {:induction false} RemoveLast<T>(s: seq<T>)
    requires s != []
    ensures RemoveAt(s, |s| - 1) == s[..|s| - 1]
  {
  }

  lemma {:induction false} RemoveBeforeLast<T>(s: seq<T>, i: nat)
    requires i < |s| - 1
    ensures var init, last := s[..|s| - 1], s[|s| - 1];
            s == init + [last] && init[i] == s[i] && RemoveAt(s, i) == RemoveAt(init, i) + [last]
  {
  }

  lemma {:induction false} RemoveAtMultiset<T>(s: seq<T>, i: nat)
    requires i < |s|
    ensures multiset(s) == multiset(RemoveAt(s, i)) + multiset{s[i]}
  {
    assert s == s[..i] + [s[i]] + s[i + 1..];
  }

  /** The position of the first element `p` accepts, or the length. */
  function FirstIndex<T>(s: seq<T>, p: T -> bool): (i: nat)
    ensures i <= |s|
    ensures i < |s| ==> p(s[i])
    ensures forall j | 0 <= j < i :: !p(s[j])
  {
    if s == [] || p(s[0]) then 0 else 1 + FirstIndex(s[1..], p)
  }

  // ------------------------------------------------ parts in order

  /** `at` picks the elements of `a` out of `b`, from left to right. */
  predicate Picks<T(==)>(at: seq<nat>, a: seq<T>, b: seq<T>)
  {
    && |at| == |a|
    && (forall i | 0 <= i < |a| :: at[i] < |b| && b[at[i]] == a[i])
    && (forall i, j | 0 <= i < j < |at| :: at[i] < at[j])
  }

  /** `a` is `b` with some elements left out. */
  ghost predicate Subsequence<T>(a: seq<T>, b: seq<T>)
  {
    exists at: seq<nat> :: Picks(at, a, b)
  }

  lemma {:induction false} SubsequenceOfItself<T>(a: seq<T>)
    ensures Subsequence(a, a)
  {
    assert Picks(seq(|a|, i requires 0 <= i < |a| => i), a, a);
  }

  lemma {:induction false} NothingIsSubsequence<T>(b: seq<T>)
    ensures Subsequence([], b)
  {
    var none: seq<T> := [];
    assert Picks([], none, b);
  }

  lemma {:induction false} PicksConcat<T>(at: seq<nat>, a: seq<T>, b: seq<T>, at': seq<nat>, c: seq<T>, d: seq<T>)
    requires Picks(at, a, b) && Picks(at', c, d)
    ensures Picks(at + seq(|at'|, i requires 0 <= i < |at'| => at'[i] + |b|), a + c, b + d)
  {
  }

  lemma {:induction false} SubsequenceConcat<T>(a: seq<T>, b: seq<T>, c: seq<T>, d: seq<T>)
    requires Subsequence(a, b) && Subsequence(c, d)
    ensures Subsequence(a + c, b + d)
  {
    var at: seq<nat> :| Picks(at, a, b);
    var at': seq<nat> :| Picks(at', c, d);
    PicksConcat(at, a, b, at', c, d);
  }

  lemma {:induction false} SubsequenceTakes<T>(a: seq<T>, b: seq<T>, x: T)
    requires Subsequence(a, b)
    ensures Subsequence(a + [x], b + [x]) && Subsequence(a, b + [x])
  {
    SubsequenceOfItself([x]);
    SubsequenceConcat(a, b, [x], [x]);
    NothingIsSubsequence([x]);
    SubsequenceConcat(a, b, [], [x]);
    assert a + [] == a;
  }

  lemma {:induction false} SubsequenceTransitive<T>(a: seq<T>, b: seq<T>, c: seq<T>)
    requires Subsequence(a, b) && Subsequence(b, c)
    ensures Subsequence(a, c)
  {
    var at: seq<nat> :| Picks(at, a, b);
    var at': seq<nat> :| Picks(at', b, c);
    assert Picks(seq(|at|, i requires 0 <= i < |at| => at'[at[i]]), a, c);
  }

  // ------------------------------------------------ multisets

  /** What `f` makes of the elements, with multiplicity. */
  function Image<T, U>(s: seq<T>, f: T -> U): multiset<U>
  {
    if s == [] then multiset{} else Image(s[..|s| - 1], f) + multiset{f(s[|s| - 1])}
  }

  lemma {:induction false} ImageAppend<T, U>(s: seq<T>, x: T, f: T -> U)
    ensures Image(s + [x], f) == Image(s, f) + multiset{f(x)}
  {
    assert (s + [x])[..|s|] == s;
  }

  lemma {:induction false} SumsAssociate<T>(a: multiset<T>, b: multiset<T>, c: multiset<T>)
    ensures (a + b) + c == a + (b + c)
  {
  }

  lemma {:induction false} SumsSwap<T>(a: multiset<T>, b: multiset<T>, c: multiset<T>)
    ensures (a + b) + c == (a + c) + b
  {
  }

  lemma {:induction false} SumsCancel<T>(a: multiset<T>, b: multiset<T>, c: multiset<T>)
    ensures a + b == a + c <==> b == c
  {
    if a + b == a + c {
      forall x
        ensures b[x] == c[x]
      {
        assert (a + b)[x] == (a + c)[x];
      }
    }
  }

  lemma {:induction false} ConcatInit<T>(a: seq<T>, init: seq<T>, last: T)
    ensures a + (init + [last]) == (a + init) + [last]
  {
  }

  lemma {:induction false} ImageConcat<T, U>(a: seq<T>, b: seq<T>, f: T -> U)
    ensures Image(a + b, f) == Image(a, f) + Image(b, f)
    decreases |b|
  {
    if b == [] {
      assert a + b == a;
    } else {
      var init, last := b[..|b| - 1], b[|b| - 1];
      assert b == init + [last];
      hide Image;
      ImageConcat(a, init, f);
      ConcatInit(a, init, last);
      ImageAppend(a + init, last, f);
      ImageAppend(init, last, f);
      SumsAssociate(Image(a, f), Image(init, f), multiset{f(last)});
    }
  }

  lemma {:induction false} ImageSize<T, U>(s: seq<T>, f: T -> U)
    ensures |Image(s, f)| == |s|
  {
    if s != [] {
      ImageSize(s[..|s| - 1], f);
    }
  }

  /** Element by element `f` makes of `a` what `g` makes of `b`. */
  predicate SameImages<T, S, U(==)>(a: seq<T>, f: T -> U, b: seq<S>, g: S -> U)
  {
    |a| == |b| && forall i | 0 <= i < |a| :: f(a[i]) == g(b[i])
  }

  lemma {:induction false} SameImagesInit<T, S, U>(a: seq<T>, f: T -> U, b: seq<S>, g: S -> U)
    requires SameImages(a, f, b, g) && a != []
    ensures var n := |a| - 1;
            |b| == n + 1 && SameImages(a[..n], f, b[..n], g) && f(a[n]) == g(b[n])
  {
  }

  lemma {:induction false} SameImagesAgree<T, S, U>(a: seq<T>, f: T -> U, b: seq<S>, g: S -> U)
    requires SameImages(a, f, b, g)
    ensures Image(a, f) == Image(b, g)
    decreases |a|
  {
    if a != [] {
      SameImagesInit(a, f, b, g);
      hide SameImages;
      SameImagesAgree(a[..|a| - 1], f, b[..|a| - 1], g);
    } else {
      assert b == [];
    }
  }
}
