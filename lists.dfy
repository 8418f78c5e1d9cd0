/** Sequence operations shared by the three applications: the JavaScript array
    methods `filter`, `map` and `reduce` the pages build their new state with,
    `String.prototype.includes`, and the optional value that stands for
    `null`/`undefined`. */
module Lists {

  datatype Option<T> = None | Some(value: T)

  /** `s.filter(keep)`: the elements of `s` that satisfy `keep`, in their order. */
  function Filter<T(==,!new)>(keep: T -> bool, s: seq<T>): (r: seq<T>)
    ensures |r| <= |s|
    decreases |s|
  {
    if s == [] then []
    else
      var rest := Filter(keep, s[1..]);
      assert s == [s[0]] + s[1..];
      if keep(s[0]) then [s[0]] + rest else rest
  }

  /** An element is in the filtered sequence exactly when it is in `s` and
      passes the test. */
  lemma {:induction false} FilterMembers<T(!new)>(keep: T -> bool, s: seq<T>)
    ensures forall x :: x in Filter(keep, s) <==> x in s && keep(x)
    decreases |s|
  {
    if s != [] {
      FilterMembers(keep, s[1..]);
      assert s == [s[0]] + s[1..];
    }
  }

  /** Each element that passes the test is kept as often as it occurs in `s`;
      the others are gone. */
  lemma {:induction false} FilterMultiset<T(!new)>(keep: T -> bool, s: seq<T>)
    ensures forall x :: multiset(Filter(keep, s))[x] == if keep(x) then multiset(s)[x] else 0
    decreases |s|
  {
    if s != [] {
      FilterMultiset(keep, s[1..]);
      assert s == [s[0]] + s[1..];
    }
  }

  /** Filtering keeps the relative order. */
  lemma {:induction false} FilterSubsequence<T(!new)>(keep: T -> bool, s: seq<T>)
    ensures IsSubsequence(Filter(keep, s), s)
    decreases |s|
  {
    if s != [] {
      FilterSubsequence(keep, s[1..]);
      var rest := Filter(keep, s[1..]);
      if keep(s[0]) {
        assert ([s[0]] + rest)[1..] == rest;
      }
    }
  }

  /** A sequence all of whose elements pass the test is its own filter. */
  lemma {:induction false} FilterAllKept<T(!new)>(keep: T -> bool, s: seq<T>)
    ensures (forall i :: 0 <= i < |s| ==> keep(s[i])) ==> Filter(keep, s) == s
    decreases |s|
  {
    if s != [] {
      FilterAllKept(keep, s[1..]);
      assert forall i :: 1 <= i < |s| ==> s[1..][i - 1] == s[i];
      assert s == [s[0]] + s[1..];
    }
  }

  /** `s.map(f)`. */
  function Map<T, U>(f: T -> U, s: seq<T>): (r: seq<U>)
    ensures |r| == |s|
    ensures forall i :: 0 <= i < |s| ==> r[i] == f(s[i])
  {
    seq(|s|, i requires 0 <= i < |s| => f(s[i]))
  }

  /** `s.reduce((acc, x) => acc + f(x), 0)`. The page folds from the left;
      integer addition is associative, so summing from the front gives the
      same value. */
  function Sum<T>(f: T -> int, s: seq<T>): int
    decreases |s|
  {
    if s == [] then 0 else f(s[0]) + Sum(f, s[1..])
  }

  /** `r` is obtained from `s` by deleting elements: the relative order is kept. */
  predicate IsSubsequence<T(==)>(r: seq<T>, s: seq<T>)
    decreases |s|
  {
    r == [] || (s != [] && ((r[0] == s[0] && IsSubsequence(r[1..], s[1..])) || IsSubsequence(r, s[1..])))
  }

  /** `s.includes(sub)` on strings. */
  predicate Includes(s: string, sub: string)
    decreases |s|
  {
    sub <= s || (s != [] && Includes(s[1..], sub))
  }

  /** The number of elements of `s` that satisfy `p`. */
  function CountIf<T(==,!new)>(p: T -> bool, s: seq<T>): nat
  {
    |Filter(p, s)|
  }

  /** The first element adds one to the count when it passes the test. */
  lemma CountIfFront<T(!new)>(p: T -> bool, s: seq<T>)
    requires s != []
    ensures CountIf(p, s) == (if p(s[0]) then 1 else 0) + CountIf(p, s[1..])
  {
  }

  lemma {:induction false} FilterConcat<T(!new)>(keep: T -> bool, s: seq<T>, t: seq<T>)
    ensures Filter(keep, s + t) == Filter(keep, s) + Filter(keep, t)
    decreases |s|
  {
    if s == [] {
      assert s + t == t;
    } else {
      assert (s + t)[1..] == s[1..] + t;
      FilterConcat(keep, s[1..], t);
    }
  }

  /** Filtering out exactly one position leaves the sequence without it. */
  lemma {:induction false} FilterDropsOne<T(!new)>(keep: T -> bool, s: seq<T>, k: int)
    requires 0 <= k < |s| && !keep(s[k])
    requires forall i :: 0 <= i < |s| && i != k ==> keep(s[i])
    ensures Filter(keep, s) == s[..k] + s[k + 1..]
    decreases k
  {
    var tail := s[1..];
    assert forall i :: 0 <= i < |tail| ==> tail[i] == s[i + 1];
    if k == 0 {
      FilterAllKept(keep, tail);
      assert Filter(keep, s) == Filter(keep, tail);
    } else {
      FilterDropsOne(keep, tail, k - 1);
      assert Filter(keep, s) == [s[0]] + Filter(keep, tail);
      assert [s[0]] + (tail[..k - 1] + tail[k..]) == s[..k] + s[k + 1..];
    }
  }

  lemma {:induction false} SumConcat<T>(f: T -> int, s: seq<T>, t: seq<T>)
    ensures Sum(f, s + t) == Sum(f, s) + Sum(f, t)
    decreases |s|
  {
    if s == [] {
      assert s + t == t;
    } else {
      assert (s + t)[1..] == s[1..] + t;
      SumConcat(f, s[1..], t);
    }
  }

  lemma {:induction false} SumNonNegative<T>(f: T -> int, s: seq<T>)
    ensures (forall i :: 0 <= i < |s| ==> f(s[i]) >= 0) ==> Sum(f, s) >= 0
    decreases |s|
  {
    if s != [] {
      SumNonNegative(f, s[1..]);
      assert forall i :: 0 <= i < |s[1..]| ==> s[1..][i] == s[i + 1];
    }
  }

  /** The sum over `s` is the sum without position `k`, plus that element. */
  lemma SumWithout<T>(f: T -> int, s: seq<T>, k: int)
    requires 0 <= k < |s|
    ensures Sum(f, s) == Sum(f, s[..k] + s[k + 1..]) + f(s[k])
  {
    var front, back := s[..k], s[k + 1..];
    var middle := [s[k]] + back;
    assert s == front + middle;
    assert middle[1..] == back;
    SumConcat(f, front, middle);
    SumConcat(f, front, back);
  }

  /** `sub` occurs in `s` starting at position `i`. */
  ghost predicate OccursAt(s: string, sub: string, i: int)
  {
    0 <= i <= |s| - |sub| && s[i..i + |sub|] == sub
  }

  /** `Includes` holds exactly when `sub` occurs in `s` at some position. */
  lemma {:induction false} IncludesAt(s: string, sub: string)
    ensures Includes(s, sub) <==> exists i :: OccursAt(s, sub, i)
    decreases |s|
  {
    OccursAtStart(s, sub);
    if sub <= s {
    } else if s == [] {
    } else {
      IncludesAt(s[1..], sub);
      if exists i :: OccursAt(s, sub, i) {
        var i :| OccursAt(s, sub, i);
        OccursShift(s, sub, i - 1);
      }
      if exists i :: OccursAt(s[1..], sub, i) {
        var i :| OccursAt(s[1..], sub, i);
        OccursShift(s, sub, i);
      }
    }
  }

  lemma OccursAtStart(s: string, sub: string)
    ensures OccursAt(s, sub, 0) <==> sub <= s
  {
  }

  /** An occurrence in the tail is an occurrence one place further on. */
  lemma OccursShift(s: string, sub: string, i: int)
    requires s != [] && 0 <= i
    ensures OccursAt(s[1..], sub, i) <==> OccursAt(s, sub, i + 1)
  {
    if i + |sub| <= |s| - 1 {
      assert s[1..][i..i + |sub|] == s[i + 1..i + 1 + |sub|];
    }
  }
}
