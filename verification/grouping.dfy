/** Grouping with a per-group running sum, the way the dashboard builds its
    day buckets and period rows: a plain object used as an insertion-ordered
    map, `if (!m[k]) m[k] = 0; m[k] += amount` for each record in turn. */
module Grouping {
  import opened Seqs

  datatype Group<K> = Group(key: K, total: real)

  /** No key occurs twice. */
  ghost predicate DistinctKeys<K>(gs: seq<Group<K>>) {
    forall i, j :: 0 <= i < j < |gs| ==> gs[i].key != gs[j].key
  }

  ghost function KeySet<K>(gs: seq<Group<K>>): set<K> {
    set i | 0 <= i < |gs| :: gs[i].key
  }

  /** The keys the records carry. */
  ghost function RecordKeys<T, K>(s: seq<T>, keyOf: T -> K): set<K> {
    set i | 0 <= i < |s| :: keyOf(s[i])
  }

  lemma KeySetCons<K>(g: Group<K>, t: seq<Group<K>>)
    ensures KeySet([g] + t) == {g.key} + KeySet(t)
  {
    var r := [g] + t;
    assert r[0] == g;
    assert g.key in KeySet(r);
    forall x | x in KeySet(r)
      ensures x in {g.key} + KeySet(t)
    {
      var i :| 0 <= i < |r| && r[i].key == x;
      if i > 0 { assert r[i] == t[i - 1]; }
    }
    forall x | x in KeySet(t)
      ensures x in KeySet(r)
    {
      var i :| 0 <= i < |t| && t[i].key == x;
      assert r[i + 1] == t[i];
    }
  }

  /** The running sum kept for key `k`, zero while `k` has no group. */
  function TotalOf<K(==)>(gs: seq<Group<K>>, k: K): real
    decreases |gs|
  {
    if |gs| == 0 then 0.0
    else if gs[0].key == k then gs[0].total
    else TotalOf(gs[1..], k)
  }

  /** Adds `a` to the group for `k`, appending a new group when `k` is new. */
  function AddTo<K(==)>(gs: seq<Group<K>>, k: K, a: real): (r: seq<Group<K>>)
    decreases |gs|
  {
    if |gs| == 0 then [Group(k, a)]
    else if gs[0].key == k then [Group(k, gs[0].total + a)] + gs[1..]
    else [gs[0]] + AddTo(gs[1..], k, a)
  }

  /** The groups after visiting every record in order. */
  function GroupFold<T, K(==)>(s: seq<T>, keyOf: T -> K, amt: T -> real): seq<Group<K>>
    decreases |s|
  {
    if |s| == 0 then []
    else AddTo(GroupFold(s[..|s| - 1], keyOf, amt), keyOf(s[|s| - 1]), amt(s[|s| - 1]))
  }

  function GroupTotal<K>(g: Group<K>): real { g.total }

  /** `amt` on the records with key `k`, zero on the others. */
  function Masked<T, K(==)>(keyOf: T -> K, amt: T -> real, k: K): T -> real {
    (x: T) => if keyOf(x) == k then amt(x) else 0.0
  }

  lemma MaskedApply<T, K>(keyOf: T -> K, amt: T -> real, k: K, x: T)
    ensures Masked(keyOf, amt, k)(x) == if keyOf(x) == k then amt(x) else 0.0
  {
  }

  /** The reference meaning of a group's total: the amounts of exactly the records with that key. */
  function KeyTotal<T, K(==)>(s: seq<T>, keyOf: T -> K, amt: T -> real, k: K): real {
    SumBy(s, Masked(keyOf, amt, k))
  }

  lemma AddToFacts<K>(gs: seq<Group<K>>, k: K, a: real)
    requires DistinctKeys(gs)
    ensures DistinctKeys(AddTo(gs, k, a))
    ensures KeySet(AddTo(gs, k, a)) == KeySet(gs) + {k}
    ensures forall k' :: TotalOf(AddTo(gs, k, a), k') == TotalOf(gs, k') + (if k' == k then a else 0.0)
    ensures SumBy(AddTo(gs, k, a), GroupTotal) == SumBy(gs, GroupTotal) + a
  {
    AddToDistinct(gs, k, a);
    AddToTotals(gs, k, a);
    AddToSum(gs, k, a);
  }

  /** Only the running sum of `k` moves, and by exactly `a`. */
  lemma {:induction false} AddToTotals<K>(gs: seq<Group<K>>, k: K, a: real)
    ensures forall k' :: TotalOf(AddTo(gs, k, a), k') == TotalOf(gs, k') + (if k' == k then a else 0.0)
    decreases |gs|
  {
    var r := AddTo(gs, k, a);
    if |gs| == 0 {
      assert r == [Group(k, a)];
      assert r[1..] == [];
    } else if gs[0].key == k {
      assert r[1..] == gs[1..];
    } else {
      AddToTotals(gs[1..], k, a);
      assert r[1..] == AddTo(gs[1..], k, a);
    }
  }

  /** Adding to a group adds to the sum of all groups. */
  lemma {:induction false} AddToSum<K>(gs: seq<Group<K>>, k: K, a: real)
    ensures SumBy(AddTo(gs, k, a), GroupTotal) == SumBy(gs, GroupTotal) + a
    decreases |gs|
  {
    var r := AddTo(gs, k, a);
    if |gs| == 0 {
      assert r == [Group(k, a)];
      assert r[1..] == [];
    } else if gs[0].key == k {
      assert r[1..] == gs[1..];
    } else {
      AddToSum(gs[1..], k, a);
      assert r[1..] == AddTo(gs[1..], k, a);
    }
  }

  /** The keys afterwards are the keys before and `k`. */
  lemma {:induction false} AddToKeySet<K>(gs: seq<Group<K>>, k: K, a: real)
    ensures KeySet(AddTo(gs, k, a)) == KeySet(gs) + {k}
    decreases |gs|
  {
    var r := AddTo(gs, k, a);
    if |gs| == 0 {
      assert r == [Group(k, a)];
      assert r[0].key == k;
      assert KeySet(r) == {k};
    } else if gs[0].key == k {
      assert KeySet(r) == KeySet(gs) by {
        assert forall i :: 0 <= i < |r| ==> r[i].key == gs[i].key;
      }
    } else {
      var t := AddTo(gs[1..], k, a);
      AddToKeySet(gs[1..], k, a);
      assert r == [gs[0]] + t;
      assert gs == [gs[0]] + gs[1..];
      KeySetCons(gs[0], gs[1..]);
      KeySetCons(gs[0], t);
    }
  }

  /** Adding never makes a key occur twice. */
  lemma {:induction false} AddToDistinct<K>(gs: seq<Group<K>>, k: K, a: real)
    requires DistinctKeys(gs)
    ensures DistinctKeys(AddTo(gs, k, a))
    ensures KeySet(AddTo(gs, k, a)) == KeySet(gs) + {k}
    decreases |gs|
  {
    AddToKeySet(gs, k, a);
    var r := AddTo(gs, k, a);
    if |gs| == 0 {
      assert r == [Group(k, a)];
    } else if gs[0].key == k {
      assert forall i :: 0 <= i < |r| ==> r[i].key == gs[i].key;
    } else {
      var t := AddTo(gs[1..], k, a);
      AddToDistinct(gs[1..], k, a);
      assert r == [gs[0]] + t;
      forall i, j | 0 <= i < j < |r|
        ensures r[i].key != r[j].key
      {
        if i == 0 {
          assert r[j] == t[j - 1];
          assert r[j].key in KeySet(t);
          if r[j].key != k {
            var m :| 0 <= m < |gs[1..]| && gs[1..][m].key == r[j].key;
            assert gs[m + 1].key == r[j].key;
          }
        } else {
          assert r[i] == t[i - 1] && r[j] == t[j - 1];
        }
      }
    }
  }

  /** What the fold computes: distinct keys, exactly the keys that occur,
      each group's total is its key's total, and nothing is lost overall. */
  lemma {:induction false} GroupFoldFacts<T, K>(s: seq<T>, keyOf: T -> K, amt: T -> real)
    ensures DistinctKeys(GroupFold(s, keyOf, amt))
    ensures KeySet(GroupFold(s, keyOf, amt)) == RecordKeys(s, keyOf)
    ensures forall k :: TotalOf(GroupFold(s, keyOf, amt), k) == KeyTotal(s, keyOf, amt, k)
    ensures SumBy(GroupFold(s, keyOf, amt), GroupTotal) == SumBy(s, amt)
    decreases |s|
  {
    if |s| > 0 {
      var n := |s| - 1;
      var init := s[..n];
      var x := s[n];
      GroupFoldFacts(init, keyOf, amt);
      AddToFacts(GroupFold(init, keyOf, amt), keyOf(x), amt(x));
      assert s == init + [x];
      SumByAppend(init, [x], amt);
      forall k
        ensures TotalOf(GroupFold(s, keyOf, amt), k) == KeyTotal(s, keyOf, amt, k)
      {
        SumByAppend(init, [x], Masked(keyOf, amt, k));
      }
      assert RecordKeys(s, keyOf) == RecordKeys(init, keyOf) + {keyOf(x)} by {
        forall y | y in RecordKeys(s, keyOf)
          ensures y in RecordKeys(init, keyOf) + {keyOf(x)}
        {
          var i :| 0 <= i < |s| && keyOf(s[i]) == y;
          if i < n { assert init[i] == s[i]; }
        }
        forall y | y in RecordKeys(init, keyOf)
          ensures y in RecordKeys(s, keyOf)
        {
          var i :| 0 <= i < |init| && keyOf(init[i]) == y;
          assert s[i] == init[i];
        }
      }
    }
  }

  /** In a list with distinct keys, a group's own total is its key's total. */
  lemma {:induction false} TotalOfMember<K>(gs: seq<Group<K>>, j: nat)
    requires DistinctKeys(gs)
    requires j < |gs|
    ensures TotalOf(gs, gs[j].key) == gs[j].total
    decreases |gs|
  {
    if j > 0 {
      assert gs[0].key != gs[j].key;
      TotalOfMember(gs[1..], j - 1);
    }
  }

  /** The fold's groups, one per key, each holding its key's total. */
  lemma GroupFoldMembers<T, K>(s: seq<T>, keyOf: T -> K, amt: T -> real)
    ensures var gs := GroupFold(s, keyOf, amt);
            forall j :: 0 <= j < |gs| ==> gs[j].total == KeyTotal(s, keyOf, amt, gs[j].key)
  {
    var gs := GroupFold(s, keyOf, amt);
    GroupFoldFacts(s, keyOf, amt);
    forall j | 0 <= j < |gs|
      ensures gs[j].total == KeyTotal(s, keyOf, amt, gs[j].key)
    {
      TotalOfMember(gs, j);
      assert TotalOf(gs, gs[j].key) == KeyTotal(s, keyOf, amt, gs[j].key);
    }
  }

  /** The keys depend only on the records' keys, not on the amounts. */
  lemma {:induction false} GroupFoldKeys<T, K>(s: seq<T>, keyOf: T -> K, amt1: T -> real, amt2: T -> real)
    ensures |GroupFold(s, keyOf, amt1)| == |GroupFold(s, keyOf, amt2)|
    ensures forall j :: 0 <= j < |GroupFold(s, keyOf, amt1)| ==>
              GroupFold(s, keyOf, amt1)[j].key == GroupFold(s, keyOf, amt2)[j].key
    decreases |s|
  {
    if |s| > 0 {
      var init := s[..|s| - 1];
      var x := s[|s| - 1];
      GroupFoldKeys(init, keyOf, amt1, amt2);
      AddToKeys(GroupFold(init, keyOf, amt1), GroupFold(init, keyOf, amt2), keyOf(x), amt1(x), amt2(x));
    }
  }

  lemma {:induction false} AddToKeys<K>(g1: seq<Group<K>>, g2: seq<Group<K>>, k: K, a1: real, a2: real)
    requires |g1| == |g2|
    requires forall j :: 0 <= j < |g1| ==> g1[j].key == g2[j].key
    ensures |AddTo(g1, k, a1)| == |AddTo(g2, k, a2)|
    ensures forall j :: 0 <= j < |AddTo(g1, k, a1)| ==> AddTo(g1, k, a1)[j].key == AddTo(g2, k, a2)[j].key
    decreases |g1|
  {
    if |g1| > 0 && g1[0].key != k {
      AddToKeys(g1[1..], g2[1..], k, a1, a2);
    }
  }
}
