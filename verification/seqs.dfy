/** Sequence operations used by several modules: order-preserving filtering
    (JavaScript `Array.prototype.filter`, an SQL `WHERE` over rows in scan order),
    first match (SQLAlchemy `.first()`), sums (SQL `SUM`, Python `sum`) and a stable
    sort in descending order of an integer key (JavaScript `Array.prototype.sort`
    with a `b - a` comparator, SQL `ORDER BY ... DESC`). */
module Seqs {
  import opened Wrappers

  /** The elements of `s` that satisfy `p`, in their original order. */
  function Filter<T(==)>(s: seq<T>, p: T -> bool): (r: seq<T>)
    ensures |r| <= |s|
    ensures forall i :: 0 <= i < |r| ==> p(r[i]) && r[i] in s
    ensures forall i :: 0 <= i < |s| && p(s[i]) ==> s[i] in r
  {
    if s == [] then []
    else if p(s[0]) then [s[0]] + Filter(s[1..], p)
    else Filter(s[1..], p)
  }

  lemma {:induction false} FilterAppend<T>(s: seq<T>, t: seq<T>, p: T -> bool)
    ensures Filter(s + t, p) == Filter(s, p) + Filter(t, p)
  {
    if s == [] {
      assert s + t == t;
    } else {
      assert (s + t)[1..] == s[1..] + t;
      FilterAppend(s[1..], t, p);
    }
  }

  /** Filtering never changes how often a kept element occurs. */
  lemma {:induction false} FilterMultiset<T>(s: seq<T>, p: T -> bool, x: T)
    ensures multiset(Filter(s, p))[x] == if p(x) then multiset(s)[x] else 0
  {
    if s != [] {
      assert s == [s[0]] + s[1..];
      FilterMultiset(s[1..], p, x);
    }
  }

  /** Index of the first element satisfying `p`, if any. */
  function FindFirst<T>(s: seq<T>, p: T -> bool): (r: Option<nat>)
    ensures r.Some? ==> r.value < |s| && p(s[r.value])
    ensures r.Some? ==> forall j :: 0 <= j < r.value ==> !p(s[j])
    ensures r.None? <==> forall j :: 0 <= j < |s| ==> !p(s[j])
  {
    if s == [] then None
    else if p(s[0]) then Some(0)
    else match FindFirst(s[1..], p)
      case None => None
      case Some(i) => Some(i + 1)
  }

  /** `s` without its element at index `i`. */
  function RemoveAt<T>(s: seq<T>, i: nat): (r: seq<T>)
    requires i < |s|
    ensures |r| == |s| - 1
    ensures forall j :: 0 <= j < i ==> r[j] == s[j]
    ensures forall j :: i <= j < |r| ==> r[j] == s[j + 1]
  {
    s[..i] + s[i + 1..]
  }

  /** Sum of `f` over the elements of `s`. */
  function SumBy<T>(s: seq<T>, f: T -> int): int {
    if s == [] then 0 else f(s[0]) + SumBy(s[1..], f)
  }

  lemma {:induction false} SumByAppend<T>(s: seq<T>, t: seq<T>, f: T -> int)
    ensures SumBy(s + t, f) == SumBy(s, f) + SumBy(t, f)
  {
    if s == [] {
      assert s + t == t;
    } else {
      assert (s + t)[1..] == s[1..] + t;
      SumByAppend(s[1..], t, f);
    }
  }

  ghost predicate SortedDesc<T>(s: seq<T>, key: T -> int) {
    forall i, j :: 0 <= i < j < |s| ==> key(s[i]) >= key(s[j])
  }

  /** The elements of `s` whose key is `k`, in order: a stable sort keeps this
      subsequence unchanged for every `k`. */
  function WithKey<T>(s: seq<T>, key: T -> int, k: int): seq<T> {
    if s == [] then []
    else if key(s[0]) == k then [s[0]] + WithKey(s[1..], key, k)
    else WithKey(s[1..], key, k)
  }

  /** Inserts `x` in front of the first element of `s` whose key is not
      larger than `x`'s. */
  function InsertDesc<T>(x: T, s: seq<T>, key: T -> int): (r: seq<T>)
    ensures |r| == |s| + 1 && (r[0] == x || (s != [] && r[0] == s[0]))
  {
    if s == [] || key(x) >= key(s[0]) then [x] + s
    else [s[0]] + InsertDesc(x, s[1..], key)
  }

  /** Insertion adds exactly `x`. */
  lemma {:induction false} InsertDescMultiset<T>(x: T, s: seq<T>, key: T -> int)
    ensures multiset(InsertDesc(x, s, key)) == multiset(s) + multiset{x}
  {
    if s == [] || key(x) >= key(s[0]) {
      assert InsertDesc(x, s, key) == [x] + s;
    } else {
      var rest := InsertDesc(x, s[1..], key);
      InsertDescMultiset(x, s[1..], key);
      assert InsertDesc(x, s, key) == [s[0]] + rest;
      assert multiset(InsertDesc(x, s, key)) == multiset{s[0]} + multiset(rest);
      assert s == [s[0]] + s[1..];
      assert multiset(s) == multiset{s[0]} + multiset(s[1..]);
    }
  }

  /** Insertion keeps a descending sequence descending. */
  lemma {:induction false} InsertDescSorted<T>(x: T, s: seq<T>, key: T -> int)
    requires SortedDesc(s, key)
    ensures SortedDesc(InsertDesc(x, s, key), key)
  {
    var r := InsertDesc(x, s, key);
    if s == [] || key(x) >= key(s[0]) {
      assert r == [x] + s;
    } else {
      var rest := InsertDesc(x, s[1..], key);
      InsertDescSorted(x, s[1..], key);
      assert r == [s[0]] + rest;
      assert key(s[0]) >= key(rest[0]);
      assert forall j :: 0 <= j < |rest| ==> key(rest[0]) >= key(rest[j]);
    }
  }

  /** Inserting `x` puts it in front of the elements with its key. */
  lemma {:induction false} InsertDescWithKey<T>(x: T, s: seq<T>, key: T -> int, k: int)
    ensures WithKey(InsertDesc(x, s, key), key, k) == (if key(x) == k then [x] else []) + WithKey(s, key, k)
  {
    if s == [] || key(x) >= key(s[0]) {
      assert InsertDesc(x, s, key) == [x] + s;
    } else {
      InsertDescWithKey(x, s[1..], key, k);
      assert InsertDesc(x, s, key) == [s[0]] + InsertDesc(x, s[1..], key);
    }
  }

  /** Stable sort in descending key order: insertion sort from the back. */
  function SortDesc<T>(s: seq<T>, key: T -> int): (r: seq<T>)
    ensures |r| == |s|
  {
    if s == [] then [] else InsertDesc(s[0], SortDesc(s[1..], key), key)
  }

  /** The sort is descending. */
  lemma {:induction false} SortDescSorted<T>(s: seq<T>, key: T -> int)
    ensures SortedDesc(SortDesc(s, key), key)
  {
    if s != [] {
      SortDescSorted(s[1..], key);
      InsertDescSorted(s[0], SortDesc(s[1..], key), key);
    }
  }

  /** The sort is a permutation. */
  lemma {:induction false} SortDescMultiset<T>(s: seq<T>, key: T -> int)
    ensures multiset(SortDesc(s, key)) == multiset(s)
  {
    if s != [] {
      SortDescMultiset(s[1..], key);
      InsertDescMultiset(s[0], SortDesc(s[1..], key), key);
      assert s == [s[0]] + s[1..];
    }
  }

  /** The sort is stable: the elements of each key keep their order. */
  lemma {:induction false} SortDescIsStable<T>(s: seq<T>, key: T -> int, k: int)
    ensures WithKey(SortDesc(s, key), key, k) == WithKey(s, key, k)
  {
    if s != [] {
      SortDescIsStable(s[1..], key, k);
      InsertDescWithKey(s[0], SortDesc(s[1..], key), key, k);
    }
  }

  lemma SortDescFacts<T>(s: seq<T>, key: T -> int)
    ensures SortedDesc(SortDesc(s, key), key)
    ensures multiset(SortDesc(s, key)) == multiset(s)
    ensures forall k :: WithKey(SortDesc(s, key), key, k) == WithKey(s, key, k)
  {
    SortDescSorted(s, key);
    SortDescMultiset(s, key);
    forall k ensures WithKey(SortDesc(s, key), key, k) == WithKey(s, key, k) {
      SortDescIsStable(s, key, k);
    }
  }

  lemma {:induction false} SumByInsertDesc<T>(x: T, s: seq<T>, key: T -> int, f: T -> int)
    ensures SumBy(InsertDesc(x, s, key), f) == f(x) + SumBy(s, f)
  {
    if s == [] || key(x) >= key(s[0]) {
    } else {
      SumByInsertDesc(x, s[1..], key, f);
    }
  }

  /** Sorting does not change a sum. */
  lemma {:induction false} SumBySortDesc<T>(s: seq<T>, key: T -> int, f: T -> int)
    ensures SumBy(SortDesc(s, key), f) == SumBy(s, f)
  {
    if s != [] {
      SumBySortDesc(s[1..], key, f);
      SumByInsertDesc(s[0], SortDesc(s[1..], key), key, f);
    }
  }

  lemma {:induction false} FilterSumInsertDesc<T>(x: T, s: seq<T>, key: T -> int, p: T -> bool, f: T -> int)
    ensures SumBy(Filter(InsertDesc(x, s, key), p), f) == (if p(x) then f(x) else 0) + SumBy(Filter(s, p), f)
  {
    if s == [] || key(x) >= key(s[0]) {
      FilterSumCons(x, s, p, f);
    } else {
      var rest := InsertDesc(x, s[1..], key);
      FilterSumInsertDesc(x, s[1..], key, p, f);
      FilterSumCons(s[0], rest, p, f);
      FilterSumCons(s[0], s[1..], p, f);
      assert s == [s[0]] + s[1..];
    }
  }

  lemma FilterSumCons<T>(x: T, s: seq<T>, p: T -> bool, f: T -> int)
    ensures SumBy(Filter([x] + s, p), f) == (if p(x) then f(x) else 0) + SumBy(Filter(s, p), f)
  {
    assert ([x] + s)[1..] == s;
  }

  /** Sorting does not change the sum over the elements that satisfy `p`. */
  lemma {:induction false} FilterSumSortDesc<T>(s: seq<T>, key: T -> int, p: T -> bool, f: T -> int)
    ensures SumBy(Filter(SortDesc(s, key), p), f) == SumBy(Filter(s, p), f)
  {
    if s != [] {
      FilterSumSortDesc(s[1..], key, p, f);
      FilterSumInsertDesc(s[0], SortDesc(s[1..], key), key, p, f);
    }
  }
}
