/** The Kotlin list operations the app relies on. `sortedBy` and `sortedByDescending` are stable
    sorts on a real-valued key, both modelled as one insertion sort specified by sortedness,
    permutation and stability; `distinct`, `find`-style first occurrence, `take` and sublists. */
module Lists {

  /** Keys are non-decreasing from left to right. */
  ghost predicate SortedBy<T>(s: seq<T>, key: T -> real) {
    forall i, j :: 0 <= i < j < |s| ==> key(s[i]) <= key(s[j])
  }

  /** Keys are non-increasing from left to right. */
  ghost predicate SortedDescendingBy<T>(s: seq<T>, key: T -> real) {
    forall i, j :: 0 <= i < j < |s| ==> key(s[i]) >= key(s[j])
  }

  /** The elements of `s` whose key is `k`, in their order in `s`. A sort is stable when it
      leaves this subsequence unchanged for every `k`. */
  function WithKey<T>(s: seq<T>, key: T -> real, k: real): seq<T> {
    if s == [] then [] else (if key(s[0]) == k then [s[0]] else []) + WithKey(s[1..], key, k)
  }

  function Negated<T>(key: T -> real): T -> real {
    x => -key(x)
  }

  /** Puts `x` before the first element whose key is at least `x`'s. */
  function Insert<T>(x: T, s: seq<T>, key: T -> real): seq<T> {
    if s == [] || key(x) <= key(s[0]) then [x] + s else [s[0]] + Insert(x, s[1..], key)
  }

  /** Kotlin `sortedBy(key)`. */
  function SortBy<T>(s: seq<T>, key: T -> real): seq<T> {
    if s == [] then [] else Insert(s[0], SortBy(s[1..], key), key)
  }

  /** Kotlin `sortedByDescending(key)`. */
  function SortByDescending<T>(s: seq<T>, key: T -> real): seq<T> {
    SortBy(s, Negated(key))
  }

  /** Inserting an element with key at least `b` into a list whose keys are all at least `b`
      keeps every key at least `b`. */
  lemma {:induction false} InsertBounded<T>(x: T, s: seq<T>, key: T -> real, b: real)
    requires b <= key(x) && forall i :: 0 <= i < |s| ==> b <= key(s[i])
    ensures forall i :: 0 <= i < |Insert(x, s, key)| ==> b <= key(Insert(x, s, key)[i])
    decreases |s|
  {
    if s != [] && key(x) > key(s[0]) {
      InsertBounded(x, s[1..], key, b);
    }
  }

  lemma {:induction false} InsertSorted<T>(x: T, s: seq<T>, key: T -> real)
    requires SortedBy(s, key)
    ensures SortedBy(Insert(x, s, key), key)
    ensures multiset(Insert(x, s, key)) == multiset(s) + multiset{x}
  {
    InsertKeepsSorted(x, s, key);
    InsertPermutes(x, s, key);
  }

  lemma {:induction false} InsertKeepsSorted<T>(x: T, s: seq<T>, key: T -> real)
    requires SortedBy(s, key)
    ensures SortedBy(Insert(x, s, key), key)
    decreases |s|
  {
    if s != [] && key(x) > key(s[0]) {
      InsertKeepsSorted(x, s[1..], key);
      InsertBounded(x, s[1..], key, key(s[0]));
    }
  }

  lemma {:induction false} InsertPermutes<T>(x: T, s: seq<T>, key: T -> real)
    ensures multiset(Insert(x, s, key)) == multiset(s) + multiset{x}
    decreases |s|
  {
    if s != [] && key(x) > key(s[0]) {
      InsertPermutes(x, s[1..], key);
      assert s == [s[0]] + s[1..];
    }
  }

  lemma {:induction false} InsertWithKey<T>(x: T, s: seq<T>, key: T -> real, k: real)
    ensures WithKey(Insert(x, s, key), key, k) == (if key(x) == k then [x] else []) + WithKey(s, key, k)
    decreases |s|
  {
    if s == [] || key(x) <= key(s[0]) {
      assert ([x] + s)[1..] == s;
    } else {
      var t := Insert(x, s[1..], key);
      InsertWithKey(x, s[1..], key, k);
      assert ([s[0]] + t)[1..] == t;
    }
  }

  /** `SortBy` returns its input rearranged in non-decreasing key order. */
  lemma {:induction false} SortBySorted<T>(s: seq<T>, key: T -> real)
    ensures SortedBy(SortBy(s, key), key)
    ensures multiset(SortBy(s, key)) == multiset(s)
    decreases |s|
  {
    if s != [] {
      SortBySorted(s[1..], key);
      InsertSorted(s[0], SortBy(s[1..], key), key);
      assert s == [s[0]] + s[1..];
    }
  }

  /** `SortBy` is stable: elements with equal keys keep their input order. */
  lemma {:induction false} SortByStable<T>(s: seq<T>, key: T -> real, k: real)
    ensures WithKey(SortBy(s, key), key, k) == WithKey(s, key, k)
    decreases |s|
  {
    if s != [] {
      SortByStable(s[1..], key, k);
      InsertWithKey(s[0], SortBy(s[1..], key), key, k);
    }
  }

  lemma {:induction false} WithNegatedKey<T>(s: seq<T>, key: T -> real, k: real)
    ensures WithKey(s, Negated(key), -k) == WithKey(s, key, k)
    decreases |s|
  {
    if s != [] {
      WithNegatedKey(s[1..], key, k);
    }
  }

  /** `SortByDescending` returns its input rearranged in non-increasing key order, and elements
      with equal keys keep their input order. */
  lemma SortByDescendingCorrect<T>(s: seq<T>, key: T -> real, k: real)
    ensures SortedDescendingBy(SortByDescending(s, key), key)
    ensures multiset(SortByDescending(s, key)) == multiset(s)
    ensures WithKey(SortByDescending(s, key), key, k) == WithKey(s, key, k)
  {
    var r := SortByDescending(s, key);
    SortBySorted(s, Negated(key));
    SortByStable(s, Negated(key), -k);
    WithNegatedKey(r, key, k);
    WithNegatedKey(s, key, k);
    forall i, j | 0 <= i < j < |r| ensures key(r[i]) >= key(r[j]) {
      assert Negated(key)(r[i]) <= Negated(key)(r[j]);
    }
  }

  /** The first `n` elements (Kotlin `take(n)`). */
  function Take<T>(s: seq<T>, n: nat): (r: seq<T>)
    ensures |r| == if |s| < n then |s| else n
    ensures r <= s
  {
    if |s| <= n then s else s[..n]
  }

  lemma TakeSubMultiset<T>(s: seq<T>, n: nat)
    ensures multiset(Take(s, n)) <= multiset(s)
  {
    if |s| > n {
      assert s == s[..n] + s[n..];
    }
  }

  /** A prefix of a list sorted best-first keeps the order, and nothing left out of it (counting
      copies) has a larger key than anything kept. */
  lemma {:induction false} TakeOfSortedDescending<T>(s: seq<T>, key: T -> real, n: nat)
    requires SortedDescendingBy(s, key)
    ensures SortedDescendingBy(Take(s, n), key)
    ensures forall p, q :: p in s && p !in Take(s, n) && q in Take(s, n) ==> key(p) <= key(q)
    ensures forall p, q :: multiset(Take(s, n))[p] < multiset(s)[p] && q in Take(s, n) ==> key(p) <= key(q)
  {
    var r := Take(s, n);
    assert forall i :: 0 <= i < |r| ==> r[i] == s[i];
    forall p, q | p in s && p !in r && q in r ensures key(p) <= key(q) {
      var j :| 0 <= j < |s| && s[j] == p;
      var i :| 0 <= i < |r| && r[i] == q;
    }
    forall p, q | multiset(r)[p] < multiset(s)[p] && q in r ensures key(p) <= key(q) {
      var rest := s[|r|..];
      assert s == r + rest;
      assert p in multiset(rest);
      var j :| 0 <= j < |rest| && rest[j] == p;
      assert s[|r| + j] == p;
      var i :| 0 <= i < |r| && r[i] == q;
    }
  }

  /** The elements with a given key of a prefix are a prefix of those of the whole list. */
  lemma {:induction false} WithKeyPrefix<T>(a: seq<T>, b: seq<T>, key: T -> real, k: real)
    requires a <= b
    ensures WithKey(a, key, k) <= WithKey(b, key, k)
    decreases |a|
  {
    if a != [] {
      assert a[1..] <= b[1..];
      WithKeyPrefix(a[1..], b[1..], key, k);
    }
  }

  /** The first `n` of a list sorted best-first: at most `n` of its elements, in order, and none
      left out (not even a further copy of a kept element) has a larger key than one kept; among elements with equal keys, the kept ones are
      the first in input order (the sort is stable). */
  lemma {:induction false} TopByDescending<T>(s: seq<T>, key: T -> real, n: nat)
    ensures var r := Take(SortByDescending(s, key), n);
      |r| == (if |s| < n then |s| else n) &&
      multiset(r) <= multiset(s) &&
      (forall i, j :: 0 <= i < j < |r| ==> key(r[i]) >= key(r[j])) &&
      (forall p, q :: p in s && p !in r && q in r ==> key(p) <= key(q)) &&
      (forall p, q :: multiset(r)[p] < multiset(s)[p] && q in r ==> key(p) <= key(q)) &&
      (forall k :: WithKey(r, key, k) <= WithKey(s, key, k))
  {
    var sorted := SortByDescending(s, key);
    SortByDescendingCorrect(s, key, 0.0);
    TakeSubMultiset(sorted, n);
    TakeOfSortedDescending(sorted, key, n);
    forall p | p in s ensures p in sorted {
      assert p in multiset(sorted);
    }
    forall k ensures WithKey(Take(sorted, n), key, k) <= WithKey(s, key, k) {
      SortByDescendingCorrect(s, key, k);
      WithKeyPrefix(Take(sorted, n), sorted, key, k);
    }
  }

  /** `a` is `b` with some elements left out, order kept. */
  ghost predicate IsSubsequence<T>(a: seq<T>, b: seq<T>)
    decreases |b|
  {
    a == [] || (b != [] && ((a[0] == b[0] && IsSubsequence(a[1..], b[1..])) || IsSubsequence(a, b[1..])))
  }

  /** Index of the first occurrence of `x` in `s`. */
  function FirstIndex<T(==)>(s: seq<T>, x: T): (k: nat)
    requires x in s
    ensures k < |s| && s[k] == x && x !in s[..k]
  {
    if s[0] == x then 0 else 1 + FirstIndex(s[1..], x)
  }

  lemma FirstIndexUnique<T>(s: seq<T>, x: T, k: nat)
    requires k < |s| && s[k] == x && x !in s[..k]
    ensures FirstIndex(s, x) == k
  {
  }

  /** Kotlin `distinct()`: each element once, at its first occurrence. */
  function Distinct<T(==,!new)>(s: seq<T>): (r: seq<T>)
    ensures forall x :: x in r <==> x in s
    ensures forall i, j :: 0 <= i < j < |r| ==> r[i] != r[j]
    decreases |s|
  {
    if s == [] then []
    else
      var r := Distinct(s[..|s| - 1]);
      assert s == s[..|s| - 1] + [s[|s| - 1]];
      if s[|s| - 1] in r then r else r + [s[|s| - 1]]
  }

  /** `distinct()` lists the elements in the order of their first occurrence. */
  lemma {:induction false} DistinctKeepsFirstOccurrenceOrder<T(!new)>(s: seq<T>)
    ensures forall i, j :: 0 <= i < j < |Distinct(s)| ==>
      FirstIndex(s, Distinct(s)[i]) < FirstIndex(s, Distinct(s)[j])
    decreases |s|
  {
    if s != [] {
      var init := s[..|s| - 1];
      var last := s[|s| - 1];
      DistinctKeepsFirstOccurrenceOrder(init);
      assert s == init + [last];
      forall x | x in init ensures FirstIndex(s, x) == FirstIndex(init, x) {
        var k := FirstIndex(init, x);
        assert s[..k] == init[..k];
        FirstIndexUnique(s, x, k);
      }
      if last !in Distinct(init) {
        assert s[..|s| - 1] == init;
        FirstIndexUnique(s, last, |s| - 1);
      }
    }
  }
}
