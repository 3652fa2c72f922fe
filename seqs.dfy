/** The two list operations every page builds on: JavaScript's `Array.prototype.filter`
    and a stable sort by a numeric key (`Array.prototype.sort` with a comparator of the form
    `(a, b) => key(a) - key(b)`; the language requires that sort to be stable). */
module Seqs {

  // ---------------------------------------------------------------------------
  // Filtering
  // ---------------------------------------------------------------------------

  /** `s.filter(p)`. */
  function Filter<T>(s: seq<T>, p: T -> bool): (r: seq<T>)
    ensures |r| <= |s|
    ensures forall i :: 0 <= i < |r| ==> r[i] in s && p(r[i])
    ensures forall i :: 0 <= i < |s| && p(s[i]) ==> s[i] in r
  {
    if s == [] then [] else (if p(s[0]) then [s[0]] else []) + Filter(s[1..], p)
  }

  /** A filter keeps every occurrence of a passing value and none of a failing one. */
  lemma {:induction false} FilterCounts<T>(s: seq<T>, p: T -> bool)
    ensures forall x :: multiset(Filter(s, p))[x] == if p(x) then multiset(s)[x] else 0
  {
    if s != [] {
      FilterCounts(s[1..], p);
      assert s == [s[0]] + s[1..];
      assert multiset(s) == multiset{s[0]} + multiset(s[1..]);
    }
  }

  /** `a` can be obtained from `b` by deleting elements, keeping the order of the rest. */
  predicate IsSubsequence<T(==)>(a: seq<T>, b: seq<T>) {
    if a == [] then true
    else if b == [] then false
    else (a[0] == b[0] && IsSubsequence(a[1..], b[1..])) || IsSubsequence(a, b[1..])
  }

  lemma {:induction false} FilterAppend<T>(s: seq<T>, t: seq<T>, p: T -> bool)
    ensures Filter(s + t, p) == Filter(s, p) + Filter(t, p)
  {
    if s == [] {
      assert s + t == t;
    } else {
      assert (s + t)[1..] == s[1..] + t;
      FilterAppend(s[1..], t, p);
    }
  }

  /** A filter result is an order-preserving subsequence of its input. */
  lemma {:induction false} FilterIsSubsequence<T>(s: seq<T>, p: T -> bool)
    ensures IsSubsequence(Filter(s, p), s)
  {
    if s != [] {
      FilterIsSubsequence(s[1..], p);
      if p(s[0]) {
        assert Filter(s, p) == [s[0]] + Filter(s[1..], p);
      } else {
        assert Filter(s, p) == Filter(s[1..], p);
        SubsequenceOfTail(Filter(s, p), s);
      }
    }
  }

  lemma {:induction false} SubsequenceOfTail<T>(a: seq<T>, b: seq<T>)
    requires b != [] && IsSubsequence(a, b[1..])
    ensures IsSubsequence(a, b)
  {
  }

  /** Filtering twice with the same predicate is filtering once. */
  lemma {:induction false} FilterIdempotent<T>(s: seq<T>, p: T -> bool)
    ensures Filter(Filter(s, p), p) == Filter(s, p)
  {
    if s != [] {
      FilterIdempotent(s[1..], p);
      var rest := Filter(s[1..], p);
      if p(s[0]) {
        var once := [s[0]] + rest;
        assert Filter(s, p) == once;
        assert once[1..] == rest;
        assert Filter(once, p) == [s[0]] + Filter(rest, p);
      } else {
        assert Filter(s, p) == rest;
      }
    }
  }

  /** A predicate that every element satisfies keeps the whole list, in order. */
  lemma {:induction false} FilterKeepsAll<T>(s: seq<T>, p: T -> bool)
    requires forall x :: x in s ==> p(x)
    ensures Filter(s, p) == s
  {
    if s != [] {
      assert forall x :: x in s[1..] ==> x in s;
      FilterKeepsAll(s[1..], p);
    }
  }

  /** A stronger predicate filters a subsequence of what a weaker one keeps: narrowing a
      filter never enlarges its result. */
  lemma FilterNarrows<T>(s: seq<T>, p: T -> bool, q: T -> bool)
    requires forall x :: p(x) ==> q(x)
    ensures Filter(s, p) == Filter(Filter(s, q), p)
    ensures IsSubsequence(Filter(s, p), Filter(s, q))
    ensures |Filter(s, p)| <= |Filter(s, q)|
  {
    FilterOfFilter(s, p, q);
    FilterIsSubsequence(Filter(s, q), p);
  }

  lemma {:induction false} FilterOfFilter<T>(s: seq<T>, p: T -> bool, q: T -> bool)
    requires forall x :: p(x) ==> q(x)
    ensures Filter(s, p) == Filter(Filter(s, q), p)
  {
    if s != [] {
      FilterOfFilter(s[1..], p, q);
      var rest := Filter(s[1..], q);
      if q(s[0]) {
        var once := [s[0]] + rest;
        assert Filter(s, q) == once;
        assert once[1..] == rest;
        assert Filter(once, p) == (if p(s[0]) then [s[0]] else []) + Filter(rest, p);
      } else {
        assert Filter(s, q) == rest;
        assert !p(s[0]);
      }
    }
  }

  /** Filters by the same predicate of lists equal element by element are equal. */
  lemma {:induction false} FilterExtensional<T>(s: seq<T>, p: T -> bool, q: T -> bool)
    requires forall x :: x in s ==> p(x) == q(x)
    ensures Filter(s, p) == Filter(s, q)
  {
    if s != [] {
      assert forall x :: x in s[1..] ==> x in s;
      FilterExtensional(s[1..], p, q);
    }
  }

  /** Splitting what `p` keeps by a second test `q` partitions it: the two halves together
      hold exactly the elements `p` keeps. */
  lemma {:induction false} FilterPartition<T>(s: seq<T>, p: T -> bool, yes: T -> bool, no: T -> bool, q: T -> bool)
    requires forall x :: yes(x) == (p(x) && q(x))
    requires forall x :: no(x) == (p(x) && !q(x))
    ensures |Filter(s, yes)| + |Filter(s, no)| == |Filter(s, p)|
    ensures multiset(Filter(s, yes)) + multiset(Filter(s, no)) == multiset(Filter(s, p))
  {
    if s != [] {
      FilterPartition(s[1..], p, yes, no, q);
    }
  }

  /** Filtering by `p` and then by `q` is filtering once by their conjunction `pq`. */
  lemma {:induction false} FilterThen<T>(s: seq<T>, p: T -> bool, q: T -> bool, pq: T -> bool)
    requires forall x :: pq(x) == (p(x) && q(x))
    ensures Filter(Filter(s, p), q) == Filter(s, pq)
  {
    if s != [] {
      FilterThen(s[1..], p, q, pq);
      var rest := Filter(s[1..], p);
      if p(s[0]) {
        var once := [s[0]] + rest;
        assert Filter(s, p) == once;
        assert once[1..] == rest;
      } else {
        assert Filter(s, p) == rest;
      }
    }
  }

  /** Two tests that never hold together keep, between them, at most the whole list. */
  lemma {:induction false} FilterDisjointBound<T>(s: seq<T>, p: T -> bool, q: T -> bool)
    requires forall x :: !(p(x) && q(x))
    ensures |Filter(s, p)| + |Filter(s, q)| <= |s|
  {
    if s != [] {
      FilterDisjointBound(s[1..], p, q);
    }
  }

  /** `s.map(f)`. */
  function Map<T, U>(s: seq<T>, f: T -> U): (r: seq<U>)
    ensures |r| == |s|
    ensures forall i :: 0 <= i < |s| ==> r[i] == f(s[i])
  {
    if s == [] then [] else [f(s[0])] + Map(s[1..], f)
  }

  /** `Array.from(new Set(s))`: each value once, in the order of its first occurrence. */
  function Distinct<T(==,!new)>(s: seq<T>): (r: seq<T>)
    ensures forall x :: x in r <==> x in s
    ensures forall i, j :: 0 <= i < j < |r| ==> r[i] != r[j]
  {
    if s == [] then []
    else
      var init := Distinct(s[..|s| - 1]);
      assert s == s[..|s| - 1] + [s[|s| - 1]];
      if s[|s| - 1] in init then init else init + [s[|s| - 1]]
  }

  /** Reading more of the input only appends to the distinct values found so far, so they are
      listed in the order in which they first occur. */
  lemma {:induction false} DistinctGrows<T(!new)>(s: seq<T>, k: int)
    requires 0 <= k <= |s|
    ensures Distinct(s[..k]) <= Distinct(s)
  {
    if k < |s| {
      DistinctGrows(s[..|s| - 1], k);
      assert s[..|s| - 1][..k] == s[..k];
    } else {
      assert s[..k] == s;
    }
  }

  // ---------------------------------------------------------------------------
  // Stable sorting by an integer key
  // ---------------------------------------------------------------------------

  /** Ascending by `key`. */
  ghost predicate SortedBy<T>(s: seq<T>, key: T -> int) {
    forall i, j :: 0 <= i < j < |s| ==> key(s[i]) <= key(s[j])
  }

  /** Insertion of `x` into `t` behind every element whose key is at most `key(x)`,
      scanning from the right: the step of a stable insertion sort. */
  function Insert<T>(t: seq<T>, x: T, key: T -> int): seq<T> {
    if t == [] then [x]
    else if key(t[|t| - 1]) <= key(x) then t + [x]
    else Insert(t[..|t| - 1], x, key) + [t[|t| - 1]]
  }

  /** Stable insertion sort, consuming the input from left to right. */
  function SortByKey<T>(s: seq<T>, key: T -> int): seq<T> {
    if s == [] then [] else Insert(SortByKey(s[..|s| - 1], key), s[|s| - 1], key)
  }

  lemma {:induction false} InsertMultiset<T>(t: seq<T>, x: T, key: T -> int)
    ensures multiset(Insert(t, x, key)) == multiset(t) + multiset{x}
  {
    if t != [] && key(t[|t| - 1]) > key(x) {
      InsertMultiset(t[..|t| - 1], x, key);
      assert t == t[..|t| - 1] + [t[|t| - 1]];
    }
  }

  lemma {:induction false} InsertSorted<T>(t: seq<T>, x: T, key: T -> int)
    requires SortedBy(t, key)
    ensures SortedBy(Insert(t, x, key), key)
  {
    if t != [] && key(t[|t| - 1]) > key(x) {
      var init := t[..|t| - 1];
      InsertSorted(init, x, key);
      InsertMultiset(init, x, key);
      var r := Insert(init, x, key);
      forall i | 0 <= i < |r|
        ensures key(r[i]) <= key(t[|t| - 1])
      {
        assert r[i] in multiset(r);
        assert r[i] in multiset(init) || r[i] == x;
      }
    }
  }

  /** Where Insert puts `x`: behind position `j - 1`, whose key is at most `key(x)`, and in
      front of a run of larger keys. */
  lemma {:induction false} InsertAt<T>(t: seq<T>, x: T, key: T -> int, j: int)
    requires 0 <= j <= |t|
    requires j > 0 ==> key(t[j - 1]) <= key(x)
    requires forall m :: j <= m < |t| ==> key(t[m]) > key(x)
    ensures Insert(t, x, key) == t[..j] + [x] + t[j..]
  {
    if j < |t| {
      var init := t[..|t| - 1];
      InsertAt(init, x, key, j);
      assert init[..j] == t[..j];
      assert init[j..] + [t[|t| - 1]] == t[j..];
    } else if t != [] {
      assert t[..j] == t;
    }
  }

  /** The sort is a permutation of its input, ascending by key. */
  lemma {:induction false} SortByKeyCorrect<T>(s: seq<T>, key: T -> int)
    ensures SortedBy(SortByKey(s, key), key)
    ensures multiset(SortByKey(s, key)) == multiset(s)
    ensures |SortByKey(s, key)| == |s|
  {
    if s != [] {
      var init := s[..|s| - 1];
      SortByKeyCorrect(init, key);
      InsertSorted(SortByKey(init, key), s[|s| - 1], key);
      InsertMultiset(SortByKey(init, key), s[|s| - 1], key);
      assert s == init + [s[|s| - 1]];
      assert |multiset(SortByKey(s, key))| == |multiset(s)|;
    }
  }

  /** The test `key(y) == k`, as a named function value so that the stability lemmas
      speak of one and the same predicate. */
  function KeyIs<T>(key: T -> int, k: int): T -> bool {
    y => key(y) == k
  }

  /** Inserting `x` keeps the relative order of the elements sharing any one key value. */
  lemma {:induction false} InsertStable<T>(t: seq<T>, x: T, key: T -> int, k: int)
    ensures Filter(Insert(t, x, key), KeyIs(key, k))
         == Filter(t, KeyIs(key, k)) + Filter([x], KeyIs(key, k))
  {
    var same := KeyIs(key, k);
    if t != [] && key(t[|t| - 1]) > key(x) {
      var init := t[..|t| - 1];
      var last := t[|t| - 1];
      InsertStable(init, x, key, k);
      FilterAppend(Insert(init, x, key), [last], same);
      FilterAppend(init, [last], same);
      assert t == init + [last];
      assert Insert(t, x, key) == Insert(init, x, key) + [last];
      if key(x) == k {
        assert Filter([last], same) == [];
      } else {
        assert Filter([x], same) == [];
      }
    } else if t != [] {
      FilterAppend(t, [x], same);
    }
  }

  /** Stability: for every key value, the elements with that key appear in the sorted list in
      the order they had in the input. */
  lemma {:induction false} SortByKeyStable<T>(s: seq<T>, key: T -> int, k: int)
    ensures Filter(SortByKey(s, key), KeyIs(key, k)) == Filter(s, KeyIs(key, k))
  {
    if s != [] {
      var init := s[..|s| - 1];
      SortByKeyStable(init, key, k);
      InsertStable(SortByKey(init, key), s[|s| - 1], key, k);
      FilterAppend(init, [s[|s| - 1]], KeyIs(key, k));
      assert s == init + [s[|s| - 1]];
    }
  }

  /** The first element of a non-empty sorted list has the least key of the whole input. */
  lemma SortedHeadIsLeast<T>(s: seq<T>, key: T -> int)
    requires s != []
    ensures SortByKey(s, key) != []
    ensures SortByKey(s, key)[0] in s
    ensures forall x :: x in s ==> key(SortByKey(s, key)[0]) <= key(x)
  {
    var r := SortByKey(s, key);
    SortByKeyCorrect(s, key);
    assert r[0] in multiset(r);
    forall x | x in s
      ensures key(r[0]) <= key(x)
    {
      assert x in multiset(s);
      var i :| 0 <= i < |r| && r[i] == x;
      if i > 0 {
        assert key(r[0]) <= key(r[i]);
      }
    }
  }

  /** The first element a filter keeps is preceded only by elements it drops. */
  lemma {:induction false} FilterHeadPosition<T>(s: seq<T>, p: T -> bool)
    requires Filter(s, p) != []
    ensures exists k :: 0 <= k < |s| && s[k] == Filter(s, p)[0] && forall j :: 0 <= j < k ==> !p(s[j])
  {
    if p(s[0]) {
      assert Filter(s, p)[0] == s[0];
    } else {
      assert Filter(s, p) == Filter(s[1..], p);
      FilterHeadPosition(s[1..], p);
      var k :| 0 <= k < |s[1..]| && s[1..][k] == Filter(s[1..], p)[0]
        && forall j :: 0 <= j < k ==> !p(s[1..][j]);
      forall j | 0 <= j < k + 1 ensures !p(s[j]) {
        if j > 0 {
          assert s[j] == s[1..][j - 1];
        }
      }
      assert s[k + 1] == s[1..][k];
    }
  }

  /** Ties go to the input order: the head of the sorted selection is the first selected
      element of least key, so every selected element in front of it has a larger key. */
  lemma FirstOfLeast<T>(s: seq<T>, p: T -> bool, key: T -> int)
    requires Filter(s, p) != []
    ensures SortByKey(Filter(s, p), key) != []
    ensures exists k ::
      && 0 <= k < |s|
      && s[k] == SortByKey(Filter(s, p), key)[0]
      && (forall j :: 0 <= j < k && p(s[j]) ==> key(s[j]) > key(s[k]))
  {
    var f := Filter(s, p);
    var r := SortByKey(f, key);
    SortedHeadIsLeast(f, key);
    var m := key(r[0]);
    var least := (x: T) => p(x) && key(x) == m;
    HeadIsFirstOfKey(s, p, key, least);
    FilterHeadPosition(s, least);
    var k :| 0 <= k < |s| && s[k] == Filter(s, least)[0] && forall j :: 0 <= j < k ==> !least(s[j]);
    EarlierAreLarger(s, p, key, m, k);
  }

  /** In front of the first selected element of least key `m`, every selected element has a
      larger key. */
  lemma EarlierAreLarger<T>(s: seq<T>, p: T -> bool, key: T -> int, m: int, k: int)
    requires 0 <= k < |s| && key(s[k]) == m
    requires forall x :: x in Filter(s, p) ==> m <= key(x)
    requires forall j :: 0 <= j < k ==> !(p(s[j]) && key(s[j]) == m)
    ensures forall j :: 0 <= j < k && p(s[j]) ==> key(s[j]) > key(s[k])
  {
    forall j | 0 <= j < k && p(s[j]) ensures key(s[j]) > key(s[k]) {
      assert s[j] in Filter(s, p);
    }
  }

  /** By stability, the head of the sorted selection is the first selected element sharing
      its key. */
  lemma HeadIsFirstOfKey<T>(s: seq<T>, p: T -> bool, key: T -> int, least: T -> bool)
    requires Filter(s, p) != []
    requires SortByKey(Filter(s, p), key) != []
    requires forall x :: least(x) == (p(x) && key(x) == key(SortByKey(Filter(s, p), key)[0]))
    ensures Filter(s, least) != [] && Filter(s, least)[0] == SortByKey(Filter(s, p), key)[0]
  {
    var f := Filter(s, p);
    var r := SortByKey(f, key);
    var m := key(r[0]);
    var same := KeyIs(key, m);
    SortByKeyStable(f, key, m);
    FilterThen(s, p, same, least);
    assert Filter(r, same)[0] == r[0];
  }

  /** In-place stable insertion sort of an array by key; the result is SortByKey of the old
      contents. */
  method SortInPlace<T>(a: array<T>, key: T -> int)
    modifies a
    ensures a[..] == SortByKey(old(a[..]), key)
  {
    ghost var orig := a[..];
    var i := 0;
    while i < a.Length
      invariant 0 <= i <= a.Length
      invariant a[..i] == SortByKey(orig[..i], key)
      invariant a[i..] == orig[i..]
    {
      ghost var before := a[..];
      InsertIntoPrefix(a, i, key);
      SortStep(orig, i, key);
      assert a[..i + 1] == SortByKey(orig[..i + 1], key);
      assert a[i + 1..] == before[i + 1..] == orig[i + 1..];
      i := i + 1;
    }
    assert orig[..a.Length] == orig;
  }

  /** Moves `a[i]` left into the prefix `a[..i]` past every element of larger key. */
  method InsertIntoPrefix<T>(a: array<T>, i: int, key: T -> int)
    requires 0 <= i < a.Length
    modifies a
    ensures a[..i + 1] == Insert(old(a[..i]), old(a[i]), key)
    ensures a[i + 1..] == old(a[i + 1..])
  {
    var x := a[i];
    ghost var t := a[..i];
    ghost var rest := a[i + 1..];
    var j := i;
    while j > 0 && key(a[j - 1]) > key(x)
      invariant 0 <= j <= i
      invariant forall m :: 0 <= m < j ==> a[m] == t[m]
      invariant forall m :: j < m <= i ==> a[m] == t[m - 1]
      invariant a[i + 1..] == rest
      invariant forall m :: j <= m < i ==> key(t[m]) > key(x)
    {
      a[j] := a[j - 1];
      j := j - 1;
    }
    a[j] := x;
    InsertAt(t, x, key, j);
    assert a[..i + 1] == t[..j] + [x] + t[j..];
  }

  /** One step of the outer loop: sorting one more element inserts it into the sorted prefix. */
  lemma SortStep<T>(s: seq<T>, i: int, key: T -> int)
    requires 0 <= i < |s|
    ensures SortByKey(s[..i + 1], key) == Insert(SortByKey(s[..i], key), s[i], key)
  {
    assert s[..i + 1][..i] == s[..i];
  }
}
