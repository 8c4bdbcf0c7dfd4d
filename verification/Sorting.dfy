// Stable sorting of a sequence by a key, and filtering.
module Sorting {
  // Keys are compared lexicographically.
  type Key = (int, int)

  predicate NotAfter(a: Key, b: Key) { a.0 < b.0 || (a.0 == b.0 && a.1 <= b.1) }

  predicate Sorted<X>(key: X -> Key, xs: seq<X>) {
    forall i, j :: 0 <= i < j < |xs| ==> NotAfter(key(xs[i]), key(xs[j]))
  }

  // x after every element whose key is not greater.
  function Insert<X>(key: X -> Key, xs: seq<X>, x: X): seq<X> {
    if xs == [] then [x]
    else if NotAfter(key(xs[|xs|-1]), key(x)) then xs + [x]
    else Insert(key, xs[..|xs|-1], x) + [xs[|xs|-1]]
  }

  function StableSort<X>(key: X -> Key, xs: seq<X>): seq<X> {
    if xs == [] then [] else Insert(key, StableSort(key, xs[..|xs|-1]), xs[|xs|-1])
  }

  // Inserting adds exactly x, at the one place that keeps the order.
  lemma {:induction false} InsertSorts<X>(key: X -> Key, xs: seq<X>, x: X) returns (at: nat)
    requires Sorted(key, xs)
    ensures at <= |xs| && Insert(key, xs, x) == xs[..at] + [x] + xs[at..]
    ensures Sorted(key, Insert(key, xs, x))
    ensures forall i :: 0 <= i < |xs| ==> (i < at <==> NotAfter(key(xs[i]), key(x)))
  {
    if xs == [] || NotAfter(key(xs[|xs|-1]), key(x)) {
      at := |xs|;
    } else {
      var n := |xs| - 1;
      at := InsertSorts(key, xs[..n], x);
      assert xs[..n][at..] + [xs[n]] == xs[at..];
      assert xs[..n][..at] == xs[..at];
    }
  }

  // Sorting permutes and orders.
  lemma {:induction false} SortSorts<X>(key: X -> Key, xs: seq<X>)
    ensures Sorted(key, StableSort(key, xs)) && multiset(StableSort(key, xs)) == multiset(xs)
    decreases |xs|
  {
    if xs != [] {
      var n := |xs| - 1;
      SortSorts(key, xs[..n]);
      var sorted := StableSort(key, xs[..n]);
      var at := InsertSorts(key, sorted, xs[n]);
      assert sorted == sorted[..at] + sorted[at..];
      assert xs == xs[..n] + [xs[n]];
    }
  }

  lemma {:induction false} SortKeepsSorted<X>(key: X -> Key, xs: seq<X>)
    requires Sorted(key, xs)
    ensures StableSort(key, xs) == xs
    decreases |xs|
  {
    if xs != [] {
      var n := |xs| - 1;
      SortKeepsSorted(key, xs[..n]);
      assert xs == xs[..n] + [xs[n]];
    }
  }

  function Filter<X>(keep: X -> bool, xs: seq<X>): seq<X> {
    if xs == [] then []
    else Filter(keep, xs[..|xs|-1]) + (if keep(xs[|xs|-1]) then [xs[|xs|-1]] else [])
  }

  lemma {:induction false} FilterHolds<X>(keep: X -> bool, xs: seq<X>, x: X)
    ensures x in Filter(keep, xs) <==> x in xs && keep(x)
    decreases |xs|
  {
    if xs != [] {
      FilterHolds(keep, xs[..|xs|-1], x);
      assert xs == xs[..|xs|-1] + [xs[|xs|-1]];
    }
  }
}
