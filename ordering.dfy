/**
 * Sequence helpers that stand for the SQL clauses the routes use:
 * `ORDER BY … DESC` (a stable sort on an integer key), `WHERE` (a filter),
 * `COUNT`/`SUM` (sums over a sequence), `GROUP BY` (counting per key) and
 * `WHERE id = ?` (a lookup by key).
 */
module Ordering {
  import opened Wrappers

  /** `s` is in non-increasing order of `key`. */
  predicate SortedDesc<T>(s: seq<T>, key: T -> int) {
    forall i, j :: 0 <= i < j < |s| ==> key(s[i]) >= key(s[j])
  }

  function Insert<T(==)>(x: T, s: seq<T>, key: T -> int): (r: seq<T>)
    requires SortedDesc(s, key)
    ensures SortedDesc(r, key)
    ensures multiset(r) == multiset(s) + multiset{x}
    ensures |r| == |s| + 1
    ensures r[0] == x || (s != [] && r[0] == s[0])
  {
    if s == [] || key(x) >= key(s[0]) then
      [x] + s
    else
      var rest := Insert(x, s[1..], key);
      assert key(s[0]) >= key(rest[0]);
      assert forall j :: 0 <= j < |rest| ==> key(rest[0]) >= key(rest[j]);
      assert s == [s[0]] + s[1..];
      [s[0]] + rest
  }

  /**
   * `ORDER BY key DESC`: a permutation of `s` in non-increasing key order.
   * Rows with equal keys keep their relative order.
   */
  function SortDesc<T(==)>(s: seq<T>, key: T -> int): (r: seq<T>)
    ensures SortedDesc(r, key)
    ensures multiset(r) == multiset(s)
    ensures |r| == |s|
  {
    if s == [] then []
    else
      assert s == [s[0]] + s[1..];
      Insert(s[0], SortDesc(s[1..], key), key)
  }

  /** The elements of `s` that satisfy `p`, in their original order (SQL `WHERE`). */
  function Filter<T>(s: seq<T>, p: T -> bool): (r: seq<T>)
    ensures |r| <= |s|
    ensures forall i :: 0 <= i < |r| ==> r[i] in s && p(r[i])
    ensures forall i :: 0 <= i < |s| && p(s[i]) ==> s[i] in r
  {
    if s == [] then []
    else if p(s[0]) then [s[0]] + Filter(s[1..], p)
    else Filter(s[1..], p)
  }

  lemma {:induction false} FilterAppend<T>(a: seq<T>, b: seq<T>, p: T -> bool)
    ensures Filter(a + b, p) == Filter(a, p) + Filter(b, p)
  {
    if a == [] {
      assert a + b == b;
    } else {
      assert (a + b)[0] == a[0] && (a + b)[1..] == a[1..] + b;
      var head := if p(a[0]) then [a[0]] else [];
      calc {
        Filter(a + b, p);
        head + Filter(a[1..] + b, p);
        { FilterAppend(a[1..], b, p); }
        head + (Filter(a[1..], p) + Filter(b, p));
        Filter(a, p) + Filter(b, p);
      }
    }
  }

  /** Sum of an integer attribute over a sequence (SQL `COUNT`/`SUM` of integers). */
  function SumInt<T>(s: seq<T>, f: T -> int): int {
    if s == [] then 0 else f(s[0]) + SumInt(s[1..], f)
  }

  /** Sum of a decimal attribute over a sequence (SQL `COALESCE(SUM(x), 0)`). */
  function SumReal<T>(s: seq<T>, f: T -> real): real {
    if s == [] then 0.0 else f(s[0]) + SumReal(s[1..], f)
  }

  lemma {:induction false} SumIntAppend<T>(a: seq<T>, b: seq<T>, f: T -> int)
    ensures SumInt(a + b, f) == SumInt(a, f) + SumInt(b, f)
  {
    if a != [] {
      assert (a + b)[1..] == a[1..] + b;
      SumIntAppend(a[1..], b, f);
    } else {
      assert a + b == b;
    }
  }

  lemma {:induction false} SumRealAppend<T>(a: seq<T>, b: seq<T>, f: T -> real)
    ensures SumReal(a + b, f) == SumReal(a, f) + SumReal(b, f)
  {
    if a != [] {
      assert (a + b)[1..] == a[1..] + b;
      SumRealAppend(a[1..], b, f);
    } else {
      assert a + b == b;
    }
  }

  /** Taking the first element of `a` out of both sides of a permutation. */
  lemma RemoveMatching<T>(a: seq<T>, b: seq<T>) returns (i: nat)
    requires a != [] && multiset(a) == multiset(b)
    ensures i < |b| && b[i] == a[0]
    ensures multiset(a[1..]) == multiset(b[..i] + b[i + 1..])
    ensures b == b[..i] + ([b[i]] + b[i + 1..])
  {
    var x := a[0];
    assert x in multiset(b);
    i :| 0 <= i < |b| && b[i] == x;
    var l, r := b[..i], b[i + 1..];
    assert b == l + ([x] + r);
    assert multiset(b) == multiset(l) + multiset{x} + multiset(r);
    assert a == [x] + a[1..];
    assert multiset(a) == multiset{x} + multiset(a[1..]);
    assert multiset(l + r) == multiset(l) + multiset(r);
    calc {
      multiset(a[1..]);
      multiset(a) - multiset{x};
      multiset(b) - multiset{x};
      multiset(l + r);
    }
  }

  /** A sum does not depend on the order of the rows it runs over. */
  lemma {:induction false} SumIntPermutation<T>(a: seq<T>, b: seq<T>, f: T -> int)
    requires multiset(a) == multiset(b)
    ensures SumInt(a, f) == SumInt(b, f)
  {
    if a != [] {
      var i := RemoveMatching(a, b);
      SumIntPermutation(a[1..], b[..i] + b[i + 1..], f);
      SumIntAppend(b[..i], [b[i]] + b[i + 1..], f);
      SumIntAppend(b[..i], b[i + 1..], f);
      assert ([b[i]] + b[i + 1..])[1..] == b[i + 1..];
    } else {
      assert b == [];
    }
  }

  /** A sum does not depend on the order of the rows it runs over. */
  lemma {:induction false} SumRealPermutation<T>(a: seq<T>, b: seq<T>, f: T -> real)
    requires multiset(a) == multiset(b)
    ensures SumReal(a, f) == SumReal(b, f)
  {
    if a != [] {
      var i := RemoveMatching(a, b);
      SumRealPermutation(a[1..], b[..i] + b[i + 1..], f);
      SumRealAppend(b[..i], [b[i]] + b[i + 1..], f);
      SumRealAppend(b[..i], b[i + 1..], f);
      assert ([b[i]] + b[i + 1..])[1..] == b[i + 1..];
    } else {
      assert b == [];
    }
  }

  /** Number of rows of `s` whose `key` is `k` (`COUNT(v.id)` of one group). */
  function CountKey<T>(s: seq<T>, key: T -> int, k: int): nat {
    |Filter(s, x => key(x) == k)|
  }

  /** Total of the per-group counts over the groups `ks`. */
  function SumCounts<T>(s: seq<T>, key: T -> int, ks: seq<int>): nat {
    if ks == [] then 0 else CountKey(s, key, ks[0]) + SumCounts(s, key, ks[1..])
  }

  /** No value occurs twice in `ks`. */
  predicate Distinct(ks: seq<int>) {
    forall i, j :: 0 <= i < j < |ks| ==> ks[i] != ks[j]
  }

  /** Number of positions of `ks` that hold `k`. */
  function Occurrences(ks: seq<int>, k: int): nat {
    if ks == [] then 0 else (if ks[0] == k then 1 else 0) + Occurrences(ks[1..], k)
  }

  lemma {:induction false} OccurrencesDistinct(ks: seq<int>, k: int)
    requires Distinct(ks)
    ensures Occurrences(ks, k) == if k in ks then 1 else 0
  {
    if ks != [] {
      OccurrencesDistinct(ks[1..], k);
      assert ks[0] == k ==> k !in ks[1..];
      assert k in ks <==> ks[0] == k || k in ks[1..];
    }
  }

  lemma {:induction false} SumCountsCons<T>(x: T, s: seq<T>, key: T -> int, ks: seq<int>)
    ensures SumCounts([x] + s, key, ks) == SumCounts(s, key, ks) + Occurrences(ks, key(x))
  {
    if ks != [] {
      SumCountsCons(x, s, key, ks[1..]);
      assert ([x] + s)[1..] == s;
    }
  }

  /**
   * GROUP BY over a complete, duplicate-free list of groups partitions the
   * rows: when every row's key is one of the groups, the group counts add
   * up to the number of rows.
   */
  lemma {:induction false} CountsPartition<T>(s: seq<T>, key: T -> int, ks: seq<int>)
    requires Distinct(ks)
    requires forall x :: x in s ==> key(x) in ks
    ensures SumCounts(s, key, ks) == |s|
  {
    if s == [] {
      SumCountsEmpty(key, ks);
    } else {
      assert s == [s[0]] + s[1..];
      CountsPartition(s[1..], key, ks);
      SumCountsCons(s[0], s[1..], key, ks);
      OccurrencesDistinct(ks, key(s[0]));
    }
  }

  lemma {:induction false} SumCountsEmpty<T>(key: T -> int, ks: seq<int>)
    ensures SumCounts([], key, ks) == 0
  {
    if ks != [] {
      SumCountsEmpty(key, ks[1..]);
    }
  }

  /** The values of `s` without repetitions, in order of first occurrence. */
  function Dedup(s: seq<int>): (r: seq<int>)
    ensures Distinct(r)
    ensures forall k :: k in r <==> k in s
    ensures |r| <= |s|
  {
    if s == [] then []
    else
      var rest := Dedup(s[1..]);
      if s[0] in rest then rest else [s[0]] + rest
  }

  /** The first `n` elements of `s`, or all of them (SQL `LIMIT n`). */
  function Take<T>(s: seq<T>, n: nat): (r: seq<T>)
    ensures |r| == if |s| <= n then |s| else n
    ensures |s| <= n ==> r == s
    ensures r == s[..|r|]
  {
    if |s| <= n then s else s[..n]
  }

  /** The first row whose key is `k`: a lookup by primary key, None when no row has it. */
  function Find<T>(s: seq<T>, key: T -> int, k: int): (r: Option<T>)
    ensures r.Some? ==> r.value in s && key(r.value) == k
    ensures r.None? <==> forall i :: 0 <= i < |s| ==> key(s[i]) != k
  {
    if s == [] then None
    else if key(s[0]) == k then Some(s[0])
    else Find(s[1..], key, k)
  }

  /** `f` applied to every element of `s`, in order. */
  function Map<A, B>(s: seq<A>, f: A -> B): (r: seq<B>)
    ensures |r| == |s|
    ensures forall i :: 0 <= i < |s| ==> r[i] == f(s[i])
  {
    if s == [] then [] else [f(s[0])] + Map(s[1..], f)
  }

  lemma {:induction false} MapAppend<A, B>(a: seq<A>, b: seq<A>, f: A -> B)
    ensures Map(a + b, f) == Map(a, f) + Map(b, f)
  {
    if a == [] {
      assert a + b == b;
    } else {
      assert (a + b)[0] == a[0] && (a + b)[1..] == a[1..] + b;
      calc {
        Map(a + b, f);
        [f(a[0])] + Map(a[1..] + b, f);
        { MapAppend(a[1..], b, f); }
        [f(a[0])] + (Map(a[1..], f) + Map(b, f));
        Map(a, f) + Map(b, f);
      }
    }
  }

  /** Mapping two orderings of the same rows gives two orderings of the same values. */
  lemma {:induction false} MapPermutation<A, B>(a: seq<A>, b: seq<A>, f: A -> B)
    requires multiset(a) == multiset(b)
    ensures multiset(Map(a, f)) == multiset(Map(b, f))
    decreases |a|
  {
    if a == [] {
      assert |multiset(b)| == 0;
      assert b == [];
    } else {
      var i := RemoveMatching(a, b);
      var rest := b[..i] + b[i + 1..];
      MapPermutation(a[1..], rest, f);
      MapAppend(b[..i], [b[i]] + b[i + 1..], f);
      MapAppend([b[i]], b[i + 1..], f);
      MapAppend(b[..i], b[i + 1..], f);
      assert Map(a, f) == [f(a[0])] + Map(a[1..], f);
    }
  }

  /** A duplicate-free sequence holds each value at most once. */
  lemma {:induction false} DistinctMultiplicity(ks: seq<int>, k: int)
    requires Distinct(ks)
    ensures multiset(ks)[k] <= 1
  {
    if ks != [] {
      DistinctMultiplicity(ks[1..], k);
      assert ks == [ks[0]] + ks[1..];
      assert ks[0] !in ks[1..];
      assert ks[0] == k ==> multiset(ks[1..])[k] == 0;
    }
  }

  /** A value at two positions occurs at least twice. */
  lemma TwiceMultiplicity(b: seq<int>, i: nat, j: nat)
    requires i < j < |b| && b[i] == b[j]
    ensures multiset(b)[b[i]] >= 2
  {
    assert b == b[..j] + b[j..];
    assert b[i] in multiset(b[..j]) && b[j] in multiset(b[j..]);
  }

  /** Reordering keeps a sequence duplicate-free. */
  lemma DistinctPermutation(a: seq<int>, b: seq<int>)
    requires Distinct(a) && multiset(a) == multiset(b)
    ensures Distinct(b)
  {
    forall i, j | 0 <= i < j < |b|
      ensures b[i] != b[j]
    {
      if b[i] == b[j] {
        TwiceMultiplicity(b, i, j);
        DistinctMultiplicity(a, b[i]);
      }
    }
  }

  /** Two orderings of the same rows have the same members. */
  lemma SameMembers<T>(a: seq<T>, b: seq<T>)
    requires multiset(a) == multiset(b)
    ensures forall x :: x in a <==> x in b
  {
    forall x
      ensures x in a <==> x in b
    {
      assert x in a <==> x in multiset(a);
      assert x in b <==> x in multiset(b);
    }
  }
}
