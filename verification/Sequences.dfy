// Sequence functions shared by the rule modules: the concatenation of what each element of a
// list contributes, and facts about lists without repetition.
module Sequences {

  // The in-order concatenation of f over xs, built from the back so that a loop that has
  // processed xs[..i] extends it by one element at a time.
  function FlatMap<T, U>(f: T -> seq<U>, xs: seq<T>): seq<U> {
    if xs == [] then [] else FlatMap(f, xs[..|xs| - 1]) + f(xs[|xs| - 1])
  }

  lemma FlatMapSnoc<T, U>(f: T -> seq<U>, xs: seq<T>, i: nat)
    requires i < |xs|
    ensures FlatMap(f, xs[..i + 1]) == FlatMap(f, xs[..i]) + f(xs[i])
  {
    assert xs[..i + 1][..i] == xs[..i];
  }

  lemma FlatMapNone<T, U>(f: T -> seq<U>, xs: seq<T>)
    ensures FlatMap(f, xs[..0]) == []
  {
  }

  lemma FlatMapFull<T, U>(f: T -> seq<U>, xs: seq<T>)
    ensures FlatMap(f, xs[..|xs|]) == FlatMap(f, xs)
  {
    assert xs[..|xs|] == xs;
  }

  lemma FlatMapOne<T, U>(f: T -> seq<U>, x: T)
    ensures FlatMap(f, [x]) == f(x)
  {
    assert [x][..0] == [];
    assert FlatMap(f, [x]) == [] + f(x);
  }

  lemma {:induction false} FlatMapAppend<T, U>(f: T -> seq<U>, xs: seq<T>, ys: seq<T>)
    ensures FlatMap(f, xs + ys) == FlatMap(f, xs) + FlatMap(f, ys)
  {
    if ys == [] {
      assert xs + ys == xs;
    } else {
      var n := |ys| - 1;
      assert (xs + ys)[..|xs + ys| - 1] == xs + ys[..n];
      FlatMapAppend(f, xs, ys[..n]);
    }
  }

  lemma FlatMapPush<T, U>(f: T -> seq<U>, xs: seq<T>, x: T)
    ensures FlatMap(f, xs + [x]) == FlatMap(f, xs) + f(x)
  {
    assert (xs + [x])[..|xs|] == xs;
  }

  lemma {:induction false} FlatMapEmpty<T, U>(f: T -> seq<U>, xs: seq<T>)
    ensures FlatMap(f, xs) == [] <==> forall i :: 0 <= i < |xs| ==> f(xs[i]) == []
  {
    if xs != [] {
      FlatMapEmpty(f, xs[..|xs| - 1]);
      assert forall i :: 0 <= i < |xs| - 1 ==> xs[..|xs| - 1][i] == xs[i];
    }
  }

  lemma {:induction false} FlatMapIn<T, U>(f: T -> seq<U>, xs: seq<T>, y: U)
    ensures y in FlatMap(f, xs) <==> exists i :: 0 <= i < |xs| && y in f(xs[i])
  {
    if xs != [] {
      var n := |xs| - 1;
      FlatMapIn(f, xs[..n], y);
      assert forall i :: 0 <= i < n ==> xs[..n][i] == xs[i];
    }
  }

  lemma {:induction false} FlatMapSame<T, U>(f: T -> seq<U>, g: T -> seq<U>, xs: seq<T>)
    requires forall x :: x in xs ==> f(x) == g(x)
    ensures FlatMap(f, xs) == FlatMap(g, xs)
  {
    if xs != [] {
      var n := |xs| - 1;
      assert xs == xs[..n] + [xs[n]];
      FlatMapSame(f, g, xs[..n]);
    }
  }

  // Mapping the list first and contributing afterwards.
  lemma {:induction false} FlatMapIndexed<S, T, U>(f: S -> seq<U>, g: T -> seq<U>, xs: seq<S>, ys: seq<T>)
    requires |xs| == |ys|
    requires forall i :: 0 <= i < |xs| ==> f(xs[i]) == g(ys[i])
    ensures FlatMap(f, xs) == FlatMap(g, ys)
  {
    if xs != [] {
      var n := |xs| - 1;
      FlatMapIndexed(f, g, xs[..n], ys[..n]);
    }
  }

  lemma FlatMapMiddle<T, U>(f: T -> seq<U>, l: seq<T>, x: T, r: seq<T>)
    ensures multiset(FlatMap(f, l + [x] + r)) == multiset(FlatMap(f, l + r)) + multiset(f(x))
  {
    FlatMapAppend(f, l, r);
    FlatMapAppend(f, l + [x], r);
    FlatMapAppend(f, l, [x]);
    FlatMapOne(f, x);
  }

  // One occurrence of x can be cut out of any list that holds it.
  lemma CutOut<T>(xs: seq<T>, x: T) returns (l: seq<T>, r: seq<T>)
    requires x in multiset(xs)
    ensures xs == l + [x] + r
    ensures multiset(l + r) == multiset(xs) - multiset{x}
  {
    var j :| 0 <= j < |xs| && xs[j] == x;
    l, r := xs[..j], xs[j + 1..];
  }

  // Reordering the list reorders the contributions.
  lemma {:induction false} FlatMapPermuted<T, U>(f: T -> seq<U>, xs: seq<T>, ys: seq<T>)
    requires multiset(xs) == multiset(ys)
    ensures multiset(FlatMap(f, xs)) == multiset(FlatMap(f, ys))
  {
    if xs == [] {
      SameMultisetEmpty(xs, ys);
    } else {
      var n := |xs| - 1;
      var x := xs[n];
      MultisetSnoc(xs, n);
      FlatMapFull(f, xs);
      FlatMapSnoc(f, xs, n);
      assert xs[..n + 1] == xs;
      var l, r := CutOut(ys, x);
      FlatMapPermuted(f, xs[..n], l + r);
      FlatMapMiddle(f, l, x, r);
    }
  }

  lemma SameMultisetEmpty<T>(xs: seq<T>, ys: seq<T>)
    requires multiset(xs) == multiset(ys) && xs == []
    ensures ys == []
  {
    assert |multiset(ys)| == |ys|;
  }

  predicate Distinct<T(==)>(xs: seq<T>) {
    forall i, j :: 0 <= i < j < |xs| ==> xs[i] != xs[j]
  }

  function Elements<T>(xs: seq<T>): set<T> {
    set x | x in xs
  }

  lemma ElementsSnoc<T>(xs: seq<T>, x: T)
    ensures Elements(xs + [x]) == Elements(xs) + {x}
  {
  }

  lemma DistinctSnoc<T>(xs: seq<T>, x: T)
    ensures Distinct(xs + [x]) <==> Distinct(xs) && x !in xs
  {
    var ys := xs + [x];
    assert ys[|xs|] == x;
    assert forall i :: 0 <= i < |xs| ==> ys[i] == xs[i];
    if Distinct(ys) {
      forall i, j | 0 <= i < j < |xs|
        ensures xs[i] != xs[j]
      {
        assert ys[i] != ys[j];
      }
      forall i | 0 <= i < |xs|
        ensures xs[i] != x
      {
        assert ys[i] != ys[|xs|];
      }
    }
  }

  lemma {:induction false} DistinctSize<T>(xs: seq<T>)
    requires Distinct(xs)
    ensures |Elements(xs)| == |xs|
  {
    if xs != [] {
      var n := |xs| - 1;
      DistinctSize(xs[..n]);
      ElementsSnoc(xs[..n], xs[n]);
      assert xs == xs[..n] + [xs[n]];
      assert xs[n] !in Elements(xs[..n]);
    }
  }

  lemma {:induction false} SubsetSize<T>(a: set<T>, b: set<T>)
    requires a <= b
    ensures |a| <= |b|
  {
    if a != {} {
      var x :| x in a;
      SubsetSize(a - {x}, b - {x});
    }
  }

  // A list without repetition over a set of values is no longer than the set.
  lemma Pigeonhole<T>(xs: seq<T>, s: set<T>)
    requires Distinct(xs)
    requires forall x :: x in xs ==> x in s
    ensures |xs| <= |s|
  {
    DistinctSize(xs);
    SubsetSize(Elements(xs), s);
  }

  lemma MultisetSnoc<T>(xs: seq<T>, i: nat)
    requires i < |xs|
    ensures multiset(xs[..i + 1]) == multiset(xs[..i]) + multiset{xs[i]}
  {
    assert xs[..i + 1] == xs[..i] + [xs[i]];
  }
}
