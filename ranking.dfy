/** Ranking of scored items as the matching engine does it: Python's
    `items.sort(key=k, reverse=True)` (a stable sort, largest key first)
    followed by the slice `items[:n]`. */
module Ranking {

  /** Largest key first. */
  ghost predicate SortedDesc<T>(s: seq<T>, key: T -> real) {
    forall i, j :: 0 <= i < j < |s| ==> key(s[i]) >= key(s[j])
  }

  /** Places `x` in front of the first element whose key is not larger, so
      that among equal keys `x` comes first. */
  function Insert<T>(x: T, s: seq<T>, key: T -> real): (r: seq<T>)
    ensures |r| == |s| + 1
    ensures multiset(r) == multiset(s) + multiset{x}
  {
    if s == [] || key(s[0]) <= key(x) then [x] + s
    else
      assert s == [s[0]] + s[1..];
      [s[0]] + Insert(x, s[1..], key)
  }

  /** Insertion sort, largest key first, stable. */
  function SortDesc<T>(s: seq<T>, key: T -> real): (r: seq<T>)
    ensures |r| == |s|
    ensures multiset(r) == multiset(s)
  {
    if s == [] then []
    else
      assert s == [s[0]] + s[1..];
      Insert(s[0], SortDesc(s[1..], key), key)
  }

  /** Python's `s[:n]`. */
  function Take<T>(s: seq<T>, n: nat): (r: seq<T>)
    ensures |r| == if |s| <= n then |s| else n
    ensures |s| <= n ==> r == s
    ensures r == s[..|r|]
  {
    if |s| <= n then s else s[..n]
  }

  /** The elements of `s` whose key equals `v`, in order. */
  function WithKey<T>(s: seq<T>, key: T -> real, v: real): seq<T> {
    if s == [] then []
    else (if key(s[0]) == v then [s[0]] else []) + WithKey(s[1..], key, v)
  }

  lemma {:induction false} InsertSorted<T>(x: T, s: seq<T>, key: T -> real)
    requires SortedDesc(s, key)
    ensures SortedDesc(Insert(x, s, key), key)
    ensures Insert(x, s, key)[0] == x || Insert(x, s, key)[0] == s[0]
  {
    if s != [] && key(s[0]) > key(x) {
      InsertSorted(x, s[1..], key);
      var t := Insert(x, s[1..], key);
      assert Insert(x, s, key) == [s[0]] + t;
      assert key(t[0]) <= key(s[0]) by {
        if |s| > 1 { assert key(s[0]) >= key(s[1]); }
      }
      forall j | 0 < j < |t| + 1 ensures key(s[0]) >= key(([s[0]] + t)[j]) {
        assert key(t[0]) >= key(t[j - 1]) || j == 1;
      }
    }
  }

  /** The result of SortDesc is ordered by key, largest first. */
  lemma {:induction false} SortDescSorted<T>(s: seq<T>, key: T -> real)
    ensures SortedDesc(SortDesc(s, key), key)
  {
    if s != [] {
      SortDescSorted(s[1..], key);
      InsertSorted(s[0], SortDesc(s[1..], key), key);
    }
  }

  lemma {:induction false} InsertWithKey<T>(x: T, s: seq<T>, key: T -> real, v: real)
    ensures WithKey(Insert(x, s, key), key, v)
         == (if key(x) == v then [x] else []) + WithKey(s, key, v)
  {
    if !(s == [] || key(s[0]) <= key(x)) {
      InsertWithKey(x, s[1..], key, v);
      var t := Insert(x, s[1..], key);
      var h := if key(s[0]) == v then [s[0]] else [];
      assert ([s[0]] + t)[1..] == t;
      assert WithKey(Insert(x, s, key), key, v) == h + WithKey(t, key, v);
      assert WithKey(s, key, v) == h + WithKey(s[1..], key, v);
    } else {
      assert ([x] + s)[1..] == s;
    }
  }

  /** Stability: items with the same key keep their relative order, as in
      Python's sort. */
  lemma {:induction false} SortDescStable<T>(s: seq<T>, key: T -> real, v: real)
    ensures WithKey(SortDesc(s, key), key, v) == WithKey(s, key, v)
  {
    if s != [] {
      SortDescStable(s[1..], key, v);
      InsertWithKey(s[0], SortDesc(s[1..], key), key, v);
    }
  }

  /** Taking the first `n` of a ranking: the result is still ordered, and
      nothing left out ranks above anything kept. */
  lemma TakeOfSorted<T>(s: seq<T>, key: T -> real, n: nat)
    requires SortedDesc(s, key)
    ensures SortedDesc(Take(s, n), key)
    ensures forall i, j :: 0 <= i < |Take(s, n)| <= j < |s| ==> key(Take(s, n)[i]) >= key(s[j])
  {
  }

  /** The top `n` of a ranking leave nothing out unfairly: each element of
      `s` is either kept, or `n` elements were kept that all rank at least
      as high as it. */
  lemma TopComplete<T>(s: seq<T>, key: T -> real, n: nat, x: T)
    requires x in s
    ensures x in Take(SortDesc(s, key), n)
         || (|Take(SortDesc(s, key), n)| == n
             && forall i :: 0 <= i < n ==> key(Take(SortDesc(s, key), n)[i]) >= key(x))
  {
    var sorted := SortDesc(s, key);
    assert x in multiset(sorted);
    var j :| 0 <= j < |sorted| && sorted[j] == x;
    SortDescSorted(s, key);
    TakeOfSorted(sorted, key, n);
    if j < |Take(sorted, n)| {
      assert Take(sorted, n)[j] == x;
    }
  }

  /** The top `n` of a ranking are drawn from `s`. */
  lemma TopFrom<T>(s: seq<T>, key: T -> real, n: nat)
    ensures forall y :: y in Take(SortDesc(s, key), n) ==> y in s
  {
    var sorted := SortDesc(s, key);
    forall y | y in Take(sorted, n) ensures y in s {
      assert y in multiset(sorted);
    }
  }
}
