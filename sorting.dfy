/** The in-place `Array.prototype.sort` calls of the storefront and the
    back-office, both of which sort on one integer key (a price in cents, an
    order date as a timestamp) with a subtracting comparator. */
module Sorting {

  /** Which way the comparator orders the key; `Unsorted` is the comparator
      that always returns 0. */
  datatype Direction = Ascending | Descending | Unsorted

  /** The comparator: `kx - ky` when ascending, `ky - kx` when descending, 0
      otherwise. A positive value means that x belongs after y. */
  function Compare(kx: int, ky: int, dir: Direction): int
  {
    match dir
    case Ascending => kx - ky
    case Descending => ky - kx
    case Unsorted => 0
  }

  /** No pair of elements is out of order for the comparator. */
  ghost predicate SortedBy<T>(s: seq<T>, key: T -> int, dir: Direction)
  {
    forall i, j :: 0 <= i < j < |s| ==> Compare(key(s[i]), key(s[j]), dir) <= 0
  }

  /** The first `n` elements of `s` are in order, except possibly for pairs
      whose later element is at position `hole`. */
  ghost predicate SortedUpToExcept<T>(s: seq<T>, n: int, hole: int, key: T -> int, dir: Direction)
    requires n <= |s|
  {
    forall k, l :: 0 <= k < l < n && l != hole ==> Compare(key(s[k]), key(s[l]), dir) <= 0
  }

  /** Sorts `a` in place by insertion, exchanging neighbours that the
      comparator says are out of order. Elements the comparator finds equal
      are never exchanged, so a comparator that always returns 0 leaves the
      array as it was. */
  method SortInPlace<T>(a: array<T>, key: T -> int, dir: Direction)
    modifies a
    ensures SortedBy(a[..], key, dir)
    ensures multiset(a[..]) == multiset(old(a[..]))
    ensures dir == Unsorted ==> a[..] == old(a[..])
  {
    var i := 0;
    while i < a.Length
      invariant 0 <= i <= a.Length
      invariant SortedUpToExcept(a[..], i, -1, key, dir)
      invariant multiset(a[..]) == multiset(old(a[..]))
      invariant dir == Unsorted ==> a[..] == old(a[..])
    {
      InsertNext(a, i, key, dir);
      i := i + 1;
    }
  }

  /** One step of the insertion sort: moves `a[i]` left past the elements of
      the sorted prefix `a[..i]` that belong after it. */
  method InsertNext<T>(a: array<T>, i: int, key: T -> int, dir: Direction)
    requires 0 <= i < a.Length
    requires SortedUpToExcept(a[..], i, -1, key, dir)
    modifies a
    ensures SortedUpToExcept(a[..], i + 1, -1, key, dir)
    ensures multiset(a[..]) == multiset(old(a[..]))
    ensures dir == Unsorted ==> a[..] == old(a[..])
  {
    var j := i;
    while j > 0 && Compare(key(a[j - 1]), key(a[j]), dir) > 0
      invariant 0 <= j <= i
      invariant SortedUpToExcept(a[..], i + 1, j, key, dir)
      invariant multiset(a[..]) == multiset(old(a[..]))
      invariant dir == Unsorted ==> a[..] == old(a[..])
    {
      ghost var before := a[..];
      a[j - 1], a[j] := a[j], a[j - 1];
      assert a[..] == before[j - 1 := before[j]][j := before[j - 1]];
      ExchangeStep(before, i + 1, j, key, dir);
      j := j - 1;
    }
    HoleClosed(a[..], i + 1, j, key, dir);
  }

  /** Exchanging the element at the hole with its out-of-order left
      neighbour moves the hole one place left and keeps the elements. */
  lemma ExchangeStep<T>(s: seq<T>, n: int, j: int, key: T -> int, dir: Direction)
    requires 0 < j < n <= |s|
    requires SortedUpToExcept(s, n, j, key, dir)
    requires Compare(key(s[j - 1]), key(s[j]), dir) > 0
    ensures SortedUpToExcept(s[j - 1 := s[j]][j := s[j - 1]], n, j - 1, key, dir)
    ensures multiset(s[j - 1 := s[j]][j := s[j - 1]]) == multiset(s)
  {
  }

  /** Once the element at the hole is in order with its left neighbour, the
      whole prefix is in order. */
  lemma HoleClosed<T>(s: seq<T>, n: int, j: int, key: T -> int, dir: Direction)
    requires 0 <= j < n <= |s|
    requires SortedUpToExcept(s, n, j, key, dir)
    requires j > 0 ==> Compare(key(s[j - 1]), key(s[j]), dir) <= 0
    ensures SortedUpToExcept(s, n, -1, key, dir)
  {
  }
}
