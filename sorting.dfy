/**
 * The in-place sort both callers in the source use (`sort.Slice` over the
 * kept stations, ascending by distance, and over the results, descending by
 * score). `sort.Slice` is not stable, so only the order of the keys and the
 * permutation are specified; ties may come out in any order.
 */
module Sorting {

  /** `s` is ordered by `key`, smallest key first. */
  ghost predicate SortedBy<T>(s: seq<T>, key: T -> real)
  {
    forall i, j :: 0 <= i < j < |s| ==> key(s[i]) <= key(s[j])
  }

  /** `a[..n]` is ordered by `key`. */
  ghost predicate PrefixSorted<T>(a: array<T>, n: int, key: T -> real)
    reads a
    requires n <= a.Length
  {
    forall p, q :: 0 <= p < q < n ==> key(a[p]) <= key(a[q])
  }

  /** Insertion sort by adjacent swaps. */
  method SortBy<T>(a: array<T>, key: T -> real)
    modifies a
    ensures SortedBy(a[..], key)
    ensures multiset(a[..]) == old(multiset(a[..]))
  {
    var i := 0;
    while i < a.Length
      invariant 0 <= i <= a.Length
      invariant PrefixSorted(a, i, key)
      invariant multiset(a[..]) == old(multiset(a[..]))
    {
      Insert(a, i, key);
      i := i + 1;
    }
  }

  /** Moves `a[i]` down into the sorted prefix `a[..i]`. */
  method Insert<T>(a: array<T>, i: int, key: T -> real)
    requires 0 <= i < a.Length
    requires PrefixSorted(a, i, key)
    modifies a
    ensures PrefixSorted(a, i + 1, key)
    ensures multiset(a[..]) == old(multiset(a[..]))
  {
    var j := i;
    while j > 0 && key(a[j - 1]) > key(a[j])
      invariant 0 <= j <= i
      invariant forall p, q :: 0 <= p < q <= i && p != j && q != j ==> key(a[p]) <= key(a[q])
      invariant forall q :: j < q <= i ==> key(a[j]) <= key(a[q])
      invariant multiset(a[..]) == old(multiset(a[..]))
    {
      Swap(a, j - 1, j);
      j := j - 1;
    }
  }

  /** Exchanges `a[p]` and `a[q]`. */
  method Swap<T>(a: array<T>, p: int, q: int)
    requires 0 <= p < q < a.Length
    modifies a
    ensures a[..] == old(a[..])[p := old(a[q])][q := old(a[p])]
    ensures multiset(a[..]) == old(multiset(a[..]))
  {
    a[p], a[q] := a[q], a[p];
  }
}
