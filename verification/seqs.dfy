/** Generic list operations the controllers and components are built from:
    `Array.prototype.filter`, a left-to-right sum (`forEach` / `reduce`
    accumulation), a stable sort by a numeric key (`Array.prototype.sort`
    with a subtracting comparator, and the ORM's `orderBy`), and `take`. */
module Seqs {
  import opened Common

  /** Sum of `f` over the elements, in list order. */
  function SumBy<T>(s: seq<T>, f: T -> real): real
  {
    if |s| == 0 then 0.0 else f(s[0]) + SumBy(s[1..], f)
  }

  /** Summing a concatenation is summing the parts. */
  lemma {:induction false} SumByAppend<T>(a: seq<T>, b: seq<T>, f: T -> real)
    ensures SumBy(a + b, f) == SumBy(a, f) + SumBy(b, f)
    decreases |a|
  {
    if |a| == 0 {
      assert a + b == b;
    } else {
      assert (a + b)[1..] == a[1..] + b;
      SumByAppend(a[1..], b, f);
    }
  }

  /** Sums of two functions that agree on every element are equal. */
  lemma {:induction false} SumByCongruent<T>(s: seq<T>, f: T -> real, g: T -> real)
    requires forall i :: 0 <= i < |s| ==> f(s[i]) == g(s[i])
    ensures SumBy(s, f) == SumBy(s, g)
    decreases |s|
  {
    if |s| > 0 {
      SumByCongruent(s[1..], f, g);
    }
  }

  /** Sums over two lists of the same length that agree position by position are equal. */
  lemma {:induction false} SumByPointwise<A, B>(a: seq<A>, f: A -> real, b: seq<B>, g: B -> real)
    requires |a| == |b|
    requires forall i :: 0 <= i < |a| ==> f(a[i]) == g(b[i])
    ensures SumBy(a, f) == SumBy(b, g)
    decreases |a|
  {
    if |a| > 0 {
      SumByPointwise(a[1..], f, b[1..], g);
    }
  }

  /** A sum of differences is the difference of the sums. */
  lemma {:induction false} SumByLinear<T>(s: seq<T>, f: T -> real, g: T -> real, h: T -> real)
    requires forall i :: 0 <= i < |s| ==> h(s[i]) == f(s[i]) - g(s[i])
    ensures SumBy(s, h) == SumBy(s, f) - SumBy(s, g)
    decreases |s|
  {
    if |s| > 0 {
      SumByLinear(s[1..], f, g, h);
    }
  }

  /** A sum of sums is the sum of the two sums. */
  lemma {:induction false} SumByAdd<T>(s: seq<T>, f: T -> real, g: T -> real, h: T -> real)
    requires forall i :: 0 <= i < |s| ==> h(s[i]) == f(s[i]) + g(s[i])
    ensures SumBy(s, h) == SumBy(s, f) + SumBy(s, g)
    decreases |s|
  {
    if |s| > 0 {
      SumByAdd(s[1..], f, g, h);
    }
  }

  /** A function that is zero on every element sums to zero. */
  lemma {:induction false} SumByZero<T>(s: seq<T>, f: T -> real)
    requires forall i :: 0 <= i < |s| ==> f(s[i]) == 0.0
    ensures SumBy(s, f) == 0.0
    decreases |s|
  {
    if |s| > 0 {
      SumByZero(s[1..], f);
    }
  }

  /** `Array.prototype.map`. */
  function Map<A, B>(s: seq<A>, g: A -> B): (r: seq<B>)
    ensures |r| == |s|
    ensures forall i :: 0 <= i < |s| ==> r[i] == g(s[i])
  {
    seq(|s|, i requires 0 <= i < |s| => g(s[i]))
  }

  /** Summing over a mapped list is summing the composition over the original. */
  lemma {:induction false} SumByMap<A, B>(s: seq<A>, g: A -> B, f: B -> real, h: A -> real)
    requires forall i :: 0 <= i < |s| ==> h(s[i]) == f(g(s[i]))
    ensures SumBy(Map(s, g), f) == SumBy(s, h)
    decreases |s|
  {
    if |s| > 0 {
      assert Map(s, g)[1..] == Map(s[1..], g);
      SumByMap(s[1..], g, f, h);
    }
  }

  /** `r` keeps some of the elements of `s`, in their original order. */
  predicate IsSubsequence<T(==)>(r: seq<T>, s: seq<T>)
    decreases |s|
  {
    || |r| == 0
    || (&& |s| > 0
        && ((r[0] == s[0] && IsSubsequence(r[1..], s[1..])) || IsSubsequence(r, s[1..])))
  }

  /** `Array.prototype.filter`: the elements satisfying `p`, in order. */
  function Filter<T(==)>(s: seq<T>, p: T -> bool): (r: seq<T>)
    ensures |r| <= |s|
    ensures forall i :: 0 <= i < |r| ==> p(r[i]) && r[i] in s
    ensures forall i :: 0 <= i < |s| && p(s[i]) ==> s[i] in r
    ensures IsSubsequence(r, s)
    decreases |s|
  {
    if |s| == 0 then []
    else if p(s[0]) then [s[0]] + Filter(s[1..], p)
    else Filter(s[1..], p)
  }

  /** Filtering with a predicate every element satisfies changes nothing. */
  lemma {:induction false} FilterAll<T>(s: seq<T>, p: T -> bool)
    requires forall i :: 0 <= i < |s| ==> p(s[i])
    ensures Filter(s, p) == s
    decreases |s|
  {
    if |s| > 0 {
      FilterAll(s[1..], p);
      assert [s[0]] + s[1..] == s;
    }
  }

  /** Filtering with two predicates that agree on every element gives the same list. */
  lemma {:induction false} FilterCongruent<T>(s: seq<T>, p: T -> bool, q: T -> bool)
    requires forall i :: 0 <= i < |s| ==> p(s[i]) == q(s[i])
    ensures Filter(s, p) == Filter(s, q)
    decreases |s|
  {
    if |s| > 0 {
      FilterCongruent(s[1..], p, q);
    }
  }

  /** Keys never decrease along the list. */
  ghost predicate SortedBy<T>(s: seq<T>, key: T -> int)
  {
    forall i, j :: 0 <= i < j < |s| ==> key(s[i]) <= key(s[j])
  }

  /** Places `x` in front of the first element whose key is not smaller,
      so that among equal keys the earlier-inserted element comes first. */
  function Insert<T>(x: T, s: seq<T>, key: T -> int): (r: seq<T>)
    requires SortedBy(s, key)
    ensures SortedBy(r, key)
    ensures multiset(r) == multiset(s) + multiset{x}
    ensures |r| == |s| + 1
    decreases |s|
  {
    if |s| == 0 then [x]
    else if key(x) <= key(s[0]) then [x] + s
    else
      var t := Insert(x, s[1..], key);
      KeysAbove(t, s[1..], x, key, key(s[0]));
      assert s == [s[0]] + s[1..];
      [s[0]] + t
  }

  /** A rearrangement of `u` plus `x` keeps every key at or above a bound
      that `x` and all of `u` respect. */
  lemma KeysAbove<T>(t: seq<T>, u: seq<T>, x: T, key: T -> int, b: int)
    requires multiset(t) == multiset(u) + multiset{x}
    requires b <= key(x) && forall k :: 0 <= k < |u| ==> b <= key(u[k])
    ensures forall k :: 0 <= k < |t| ==> b <= key(t[k])
  {
    forall k | 0 <= k < |t|
      ensures b <= key(t[k])
    {
      assert t[k] in multiset(t);
      if t[k] != x {
        assert t[k] in u;
      }
    }
  }

  /** A stable insertion sort by ascending key. */
  function SortBy<T>(s: seq<T>, key: T -> int): (r: seq<T>)
    ensures SortedBy(r, key)
    ensures multiset(r) == multiset(s)
    ensures |r| == |s|
    decreases |s|
  {
    if |s| == 0 then []
    else
      assert s == [s[0]] + s[1..];
      Insert(s[0], SortBy(s[1..], key), key)
  }

  /** Inserting adds exactly the inserted element's share to any sum. */
  lemma {:induction false} SumByInsert<T>(x: T, s: seq<T>, key: T -> int, f: T -> real)
    requires SortedBy(s, key)
    ensures SumBy(Insert(x, s, key), f) == f(x) + SumBy(s, f)
    decreases |s|
  {
    if |s| > 0 && key(x) > key(s[0]) {
      SumByInsert(x, s[1..], key, f);
    }
  }

  /** Sorting does not change any sum over the list. */
  lemma {:induction false} SumBySortBy<T>(s: seq<T>, key: T -> int, f: T -> real)
    ensures SumBy(SortBy(s, key), f) == SumBy(s, f)
    decreases |s|
  {
    if |s| > 0 {
      SumBySortBy(s[1..], key, f);
      SumByInsert(s[0], SortBy(s[1..], key), key, f);
    }
  }

  /** Sorted by descending key: newest first when the key is a timestamp. */
  function SortDescBy<T>(s: seq<T>, key: T -> int): (r: seq<T>)
    ensures forall i, j :: 0 <= i < j < |r| ==> key(r[i]) >= key(r[j])
    ensures multiset(r) == multiset(s)
    ensures |r| == |s|
  {
    var r := SortBy(s, x => -key(x));
    assert forall i, j :: 0 <= i < j < |r| ==> -key(r[i]) <= -key(r[j]);
    r
  }

  /** `findMany({ orderBy: { date: 'desc' }, take: n })`: the `n` entries with
      the largest keys, largest first; every entry left out is no newer than
      every entry returned. */
  function Newest<T(!new)>(s: seq<T>, key: T -> int, n: nat): (r: seq<T>)
    ensures |r| == Min(n, |s|)
    ensures forall i, j :: 0 <= i < j < |r| ==> key(r[i]) >= key(r[j])
    ensures multiset(r) <= multiset(s)
    ensures forall i :: 0 <= i < |r| ==>
              forall x :: x in multiset(s) - multiset(r) ==> key(x) <= key(r[i])
  {
    var sorted := SortDescBy(s, key);
    var m := Min(n, |s|);
    PrefixIsNewest(sorted, key, m);
    sorted[..m]
  }

  /** A prefix of a list sorted by descending key holds the largest keys. */
  lemma PrefixIsNewest<T(!new)>(sorted: seq<T>, key: T -> int, m: nat)
    requires m <= |sorted|
    requires forall i, j :: 0 <= i < j < |sorted| ==> key(sorted[i]) >= key(sorted[j])
    ensures multiset(sorted[..m]) <= multiset(sorted)
    ensures forall i :: 0 <= i < m ==>
              forall x :: x in multiset(sorted) - multiset(sorted[..m]) ==> key(x) <= key(sorted[i])
  {
    var r := sorted[..m];
    var dropped := sorted[m..];
    assert sorted == r + dropped;
    assert multiset(sorted) - multiset(r) == multiset(dropped);
    forall i, x | 0 <= i < m && x in multiset(dropped)
      ensures key(x) <= key(sorted[i])
    {
      var j :| 0 <= j < |dropped| && dropped[j] == x;
      assert sorted[m + j] == x;
    }
  }
}
