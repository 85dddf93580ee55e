/** A stable sort by an integer key, as the language's built-in sort is. */
module Sorting {

  function Insert<T>(x: T, xs: seq<T>, key: T -> int): seq<T> {
    if xs == [] || key(x) <= key(xs[0]) then [x] + xs
    else [xs[0]] + Insert(x, xs[1..], key)
  }

  function SortBy<T>(xs: seq<T>, key: T -> int): (ys: seq<T>)
    ensures multiset(ys) == multiset(xs) && |ys| == |xs|
  {
    if xs == [] then []
    else
      InsertPermutes(xs[0], SortBy(xs[1..], key), key);
      assert xs == [xs[0]] + xs[1..];
      Insert(xs[0], SortBy(xs[1..], key), key)
  }

  lemma InsertPermutes<T>(x: T, xs: seq<T>, key: T -> int)
    ensures multiset(Insert(x, xs, key)) == multiset{x} + multiset(xs)
    ensures |Insert(x, xs, key)| == |xs| + 1
  {
    if xs != [] {
      assert xs == [xs[0]] + xs[1..];
    }
  }

  ghost predicate Sorted<T>(xs: seq<T>, key: T -> int) {
    forall i, j :: 0 <= i < j < |xs| ==> key(xs[i]) <= key(xs[j])
  }

  function WithKey<T>(xs: seq<T>, key: T -> int, k: int): seq<T> {
    if xs == [] then []
    else if key(xs[0]) == k then [xs[0]] + WithKey(xs[1..], key, k)
    else WithKey(xs[1..], key, k)
  }

  lemma {:induction false} InsertKeepsOrder<T>(x: T, xs: seq<T>, key: T -> int)
    requires Sorted(xs, key)
    ensures Sorted(Insert(x, xs, key), key)
  {
    if xs == [] || key(x) <= key(xs[0]) {
    } else {
      InsertKeepsOrder(x, xs[1..], key);
      var tail := Insert(x, xs[1..], key);
      InsertPermutes(x, xs[1..], key);
      forall y | y in tail ensures key(xs[0]) <= key(y) {
        assert y in multiset(tail);
        if y != x {
          assert y in multiset(xs[1..]);
        }
      }
    }
  }

  lemma {:induction false} InsertIsStable<T>(x: T, xs: seq<T>, key: T -> int, k: int)
    requires Sorted(xs, key)
    ensures WithKey(Insert(x, xs, key), key, k) == WithKey([x] + xs, key, k)
  {
    assert ([x] + xs)[1..] == xs;
    if xs == [] || key(x) <= key(xs[0]) {
    } else {
      InsertIsStable(x, xs[1..], key, k);
      assert ([x] + xs[1..])[1..] == xs[1..];
      assert Insert(x, xs, key)[1..] == Insert(x, xs[1..], key);
      if key(xs[0]) == k {
        assert key(x) != k;
      }
    }
  }

  /** Sorted, a permutation, and equal keys keep their order: together these determine the result. */
  lemma {:induction false} SortByIsStableSort<T>(xs: seq<T>, key: T -> int, k: int)
    ensures Sorted(SortBy(xs, key), key)
    ensures WithKey(SortBy(xs, key), key, k) == WithKey(xs, key, k)
  {
    if xs != [] {
      var rest := SortBy(xs[1..], key);
      SortByIsStableSort(xs[1..], key, k);
      InsertKeepsOrder(xs[0], rest, key);
      InsertIsStable(xs[0], rest, key, k);
      assert ([xs[0]] + rest)[1..] == rest;
    }
  }

  lemma {:induction false} SortBySorted<T>(xs: seq<T>, key: T -> int)
    requires Sorted(xs, key)
    ensures SortBy(xs, key) == xs
  {
    if xs != [] {
      SortBySorted(xs[1..], key);
      assert xs == [xs[0]] + xs[1..];
    }
  }

  lemma InSortBy<T>(xs: seq<T>, key: T -> int, x: T)
    ensures x in SortBy(xs, key) <==> x in xs
  {
    assert x in multiset(SortBy(xs, key)) <==> x in multiset(xs);
  }
}
