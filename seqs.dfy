/**
 * Sequence operations the views use over their record lists: filter, sums,
 * counts, find-first, slicing, and JavaScript's stable Array.prototype.sort
 * by a numeric key or by string order.
 */
module Seqs {

  import opened Text

  /** `s.filter(p)`: the elements satisfying p, in their original order. */
  function Filter<T>(s: seq<T>, p: T -> bool): (r: seq<T>)
    ensures |r| <= |s|
    ensures forall i :: 0 <= i < |r| ==> p(r[i]) && r[i] in s
    ensures forall x :: x in s && p(x) ==> x in r
  {
    if s == [] then []
    else
      var rest := Filter(s[..|s| - 1], p);
      assert forall x :: x in s[..|s| - 1] ==> x in s;
      assert forall x :: x in s ==> x in s[..|s| - 1] || x == s[|s| - 1];
      if p(s[|s| - 1]) then rest + [s[|s| - 1]] else rest
  }

  lemma FilterAppend<T>(a: seq<T>, b: seq<T>, p: T -> bool)
    ensures Filter(a + b, p) == Filter(a, p) + Filter(b, p)
    decreases |b|
  {
    if b == [] {
      assert a + b == a;
    } else {
      assert (a + b)[..|a + b| - 1] == a + b[..|b| - 1];
      FilterAppend(a, b[..|b| - 1], p);
    }
  }

  /** Filtering keeps exactly the elements that satisfy the predicate: the count of each value. */
  lemma FilterMultiset<T>(s: seq<T>, p: T -> bool, x: T)
    ensures multiset(Filter(s, p))[x] == if p(x) then multiset(s)[x] else 0
    decreases |s|
  {
    if s != [] {
      FilterMultiset(s[..|s| - 1], p, x);
      assert s == s[..|s| - 1] + [s[|s| - 1]];
    }
  }

  /** Sum of f over s, accumulated from the front as `reduce` and `forEach` do. */
  function SumBy<T>(s: seq<T>, f: T -> real): real {
    if s == [] then 0.0 else SumBy(s[..|s| - 1], f) + f(s[|s| - 1])
  }

  lemma {:induction false} SumByAppend<T>(a: seq<T>, b: seq<T>, f: T -> real)
    ensures SumBy(a + b, f) == SumBy(a, f) + SumBy(b, f)
    decreases |b|
  {
    if b == [] {
      assert a + b == a;
    } else {
      assert (a + b)[..|a + b| - 1] == a + b[..|b| - 1];
      SumByAppend(a, b[..|b| - 1], f);
    }
  }

  /** Summing a filtered list is summing the list with the left-out elements counted as 0. */
  lemma {:induction false} SumByFilter<T>(s: seq<T>, p: T -> bool, f: T -> real, g: T -> real)
    requires forall x :: g(x) == (if p(x) then f(x) else 0.0)
    ensures SumBy(Filter(s, p), f) == SumBy(s, g)
    decreases |s|
  {
    if s != [] {
      SumByFilter(s[..|s| - 1], p, f, g);
      var rest := Filter(s[..|s| - 1], p);
      if p(s[|s| - 1]) {
        SumByAppend(rest, [s[|s| - 1]], f);
      }
    }
  }

  /** Sums agree when the summed terms agree element by element. */
  lemma {:induction false} SumByCongruent<T>(s: seq<T>, f: T -> real, g: T -> real)
    requires forall i :: 0 <= i < |s| ==> f(s[i]) == g(s[i])
    ensures SumBy(s, f) == SumBy(s, g)
    decreases |s|
  {
    if s != [] {
      SumByCongruent(s[..|s| - 1], f, g);
    }
  }

  /** Taking out one element from each of two lists with the same elements leaves the same elements. */
  lemma MultisetRemove<T>(a: seq<T>, b: seq<T>, k: nat)
    requires multiset(a) == multiset(b) && a != [] && k < |b| && b[k] == a[|a| - 1]
    ensures multiset(b[..k] + b[k + 1..]) == multiset(a[..|a| - 1])
  {
    var n := |a| - 1;
    assert a == a[..n] + [a[n]];
    assert b == b[..k] + [b[k]] + b[k + 1..];
    forall y
      ensures multiset(b[..k] + b[k + 1..])[y] == multiset(a[..n])[y]
    {
      assert multiset(a)[y] == multiset(a[..n])[y] + multiset{a[n]}[y];
      assert multiset(b)[y] == multiset(b[..k])[y] + multiset{b[k]}[y] + multiset(b[k + 1..])[y];
    }
  }

  lemma SumBySingle<T>(x: T, f: T -> real)
    ensures SumBy([x], f) == f(x)
  {
    assert [x][..0] == [];
  }

  /** The sum is the sum without one element plus that element's term. */
  lemma SumByRemove<T>(b: seq<T>, k: nat, f: T -> real)
    requires k < |b|
    ensures SumBy(b, f) == SumBy(b[..k] + b[k + 1..], f) + f(b[k])
  {
    var left, right := b[..k], b[k + 1..];
    var tail := [b[k]] + right;
    assert b == left + tail;
    SumByAppend(left, tail, f);
    SumByAppend([b[k]], right, f);
    SumByAppend(left, right, f);
    SumBySingle(b[k], f);
  }

  /** Sums do not depend on the order of the terms. */
  lemma {:induction false} SumByPermutation<T>(a: seq<T>, b: seq<T>, f: T -> real)
    requires multiset(a) == multiset(b)
    ensures SumBy(a, f) == SumBy(b, f)
    decreases |a|
  {
    if a == [] {
      assert |b| == |multiset(b)| == 0;
    } else {
      var n := |a| - 1;
      assert a[n] in multiset(b);
      var k :| 0 <= k < |b| && b[k] == a[n];
      MultisetRemove(a, b, k);
      SumByPermutation(a[..n], b[..k] + b[k + 1..], f);
      SumByRemove(b, k, f);
    }
  }

  /** The number of elements satisfying p. */
  function CountBy<T>(s: seq<T>, p: T -> bool): nat {
    if s == [] then 0 else CountBy(s[..|s| - 1], p) + (if p(s[|s| - 1]) then 1 else 0)
  }

  /** `s.findIndex(p)`: the first index whose element satisfies p. */
  function FindIndex<T>(s: seq<T>, p: T -> bool): (r: Option<nat>)
    ensures r.Some? ==> r.value < |s| && p(s[r.value]) && forall j :: 0 <= j < r.value ==> !p(s[j])
    ensures r.None? ==> forall j :: 0 <= j < |s| ==> !p(s[j])
  {
    if s == [] then None
    else if p(s[0]) then Some(0)
    else
      var r := FindIndex(s[1..], p);
      if r.Some? then Some(r.value + 1) else None
  }

  /** `s.slice(0, n)`. */
  function Take<T>(s: seq<T>, n: nat): (r: seq<T>)
    ensures |r| == if n < |s| then n else |s|
    ensures r == s[..|r|]
  {
    if n < |s| then s[..n] else s
  }

  /** `s.slice(-n)` for n > 0: the last n elements, or all of them. */
  function TakeLast<T>(s: seq<T>, n: nat): (r: seq<T>)
    ensures |r| == if n < |s| then n else |s|
    ensures r == s[|s| - |r|..]
  {
    if n < |s| then s[|s| - n..] else s
  }

  /** `s.filter(x => key(x) !== k)`: drop every element carrying key k, keep the rest in order. */
  function RemoveKey<T>(s: seq<T>, key: T -> string, k: string): (r: seq<T>)
    ensures |r| <= |s|
    ensures forall i :: 0 <= i < |r| ==> key(r[i]) != k && r[i] in s
    ensures forall x :: x in s && key(x) != k ==> x in r
  {
    if s == [] then []
    else
      var rest := RemoveKey(s[..|s| - 1], key, k);
      assert forall x :: x in s[..|s| - 1] ==> x in s;
      assert forall x :: x in s ==> x in s[..|s| - 1] || x == s[|s| - 1];
      if key(s[|s| - 1]) != k then rest + [s[|s| - 1]] else rest
  }

  /** Deleting what was just appended under a key gives the same list as deleting it before the append. */
  lemma RemoveKeyAppended<T>(s: seq<T>, key: T -> string, x: T)
    ensures RemoveKey(s + [x], key, key(x)) == RemoveKey(s, key, key(x))
  {
    assert (s + [x])[..|s + [x]| - 1] == s;
  }

  /** Deleting twice deletes nothing more. */
  lemma {:induction false} RemoveKeyIdempotent<T>(s: seq<T>, key: T -> string, k: string)
    ensures RemoveKey(RemoveKey(s, key, k), key, k) == RemoveKey(s, key, k)
    decreases |s|
  {
    if s != [] {
      var rest := RemoveKey(s[..|s| - 1], key, k);
      RemoveKeyIdempotent(s[..|s| - 1], key, k);
      if key(s[|s| - 1]) != k {
        assert (rest + [s[|s| - 1]])[..|rest + [s[|s| - 1]]| - 1] == rest;
      }
    }
  }

  /**
   * `Object.keys` of a record filled while walking s: the keys key(x) of the
   * elements with p(x), each once, in order of first appearance.
   */
  function KeysOf<T>(s: seq<T>, key: T -> string, p: T -> bool): seq<string> {
    if s == [] then []
    else
      var prev := KeysOf(s[..|s| - 1], key, p);
      var x := s[|s| - 1];
      if p(x) && key(x) !in prev then prev + [key(x)] else prev
  }

  predicate Distinct<T(==)>(s: seq<T>) {
    forall i, j :: 0 <= i < j < |s| ==> s[i] != s[j]
  }

  /** The keys are distinct, and they are exactly the keys of the elements with p. */
  lemma {:induction false} KeysOfFacts<T>(s: seq<T>, key: T -> string, p: T -> bool)
    ensures var r := KeysOf(s, key, p);
      Distinct(r) &&
      (forall i :: 0 <= i < |s| && p(s[i]) ==> key(s[i]) in r) &&
      (forall j :: 0 <= j < |r| ==> exists i :: 0 <= i < |s| && p(s[i]) && key(s[i]) == r[j])
    decreases |s|
  {
    if s != [] {
      var n := |s| - 1;
      var prev := KeysOf(s[..n], key, p);
      KeysOfFacts(s[..n], key, p);
      var r := KeysOf(s, key, p);
      forall j | 0 <= j < |r|
        ensures exists i :: 0 <= i < |s| && p(s[i]) && key(s[i]) == r[j]
      {
        if j < |prev| {
          var i :| 0 <= i < n && p(s[..n][i]) && key(s[..n][i]) == prev[j];
          assert s[i] == s[..n][i];
        } else {
          assert p(s[n]) && key(s[n]) == r[j];
        }
      }
      forall i | 0 <= i < |s| && p(s[i])
        ensures key(s[i]) in r
      {
        if i < n {
          assert s[..n][i] == s[i];
        }
      }
    }
  }

  /** The sum of f over the elements whose key is k. */
  function KeyedSum<T>(s: seq<T>, key: T -> string, f: T -> real, k: string): real {
    if s == [] then 0.0
    else KeyedSum(s[..|s| - 1], key, f, k) + (if key(s[|s| - 1]) == k then f(s[|s| - 1]) else 0.0)
  }

  /** A key that no counted element carries sums to 0. */
  lemma {:induction false} KeyedSumAbsent<T>(s: seq<T>, key: T -> string, p: T -> bool, f: T -> real, k: string)
    requires forall x :: !p(x) ==> f(x) == 0.0
    requires k !in KeysOf(s, key, p)
    ensures KeyedSum(s, key, f, k) == 0.0
    decreases |s|
  {
    if s != [] {
      var n := |s| - 1;
      assert k !in KeysOf(s[..n], key, p);
      KeyedSumAbsent(s[..n], key, p, f, k);
    }
  }

  lemma KeyedSumSnoc<T>(s: seq<T>, x: T, key: T -> string, f: T -> real, k: string)
    ensures KeyedSum(s + [x], key, f, k) == KeyedSum(s, key, f, k) + (if key(x) == k then f(x) else 0.0)
  {
    assert (s + [x])[..|s|] == s;
  }

  /** The per-key sums added up over a list of keys. */
  function SumKeyed<T>(keys: seq<string>, s: seq<T>, key: T -> string, f: T -> real): real {
    if keys == [] then 0.0
    else SumKeyed(keys[..|keys| - 1], s, key, f) + KeyedSum(s, key, f, keys[|keys| - 1])
  }

  lemma {:induction false} SumKeyedSnoc<T>(keys: seq<string>, s: seq<T>, x: T, key: T -> string, f: T -> real)
    requires Distinct(keys)
    ensures SumKeyed(keys, s + [x], key, f) == SumKeyed(keys, s, key, f) + (if key(x) in keys then f(x) else 0.0)
    decreases |keys|
  {
    if keys != [] {
      var n := |keys| - 1;
      assert key(x) in keys ==> key(x) in keys[..n] || key(x) == keys[n];
      assert key(x) == keys[n] ==> key(x) !in keys[..n];
      SumKeyedSnoc(keys[..n], s, x, key, f);
      KeyedSumSnoc(s, x, key, f, keys[n]);
    }
  }

  /**
   * Adding up the per-key sums over distinct keys that cover every element
   * with a nonzero term gives the plain sum: each term is counted once.
   */
  lemma {:induction false} SumKeyedCovers<T>(keys: seq<string>, s: seq<T>, key: T -> string, f: T -> real)
    requires Distinct(keys)
    requires forall i :: 0 <= i < |s| && f(s[i]) != 0.0 ==> key(s[i]) in keys
    ensures SumKeyed(keys, s, key, f) == SumBy(s, f)
    decreases |s|
  {
    if s == [] {
      SumKeyedEmpty(keys, key, f);
    } else {
      var n := |s| - 1;
      assert s == s[..n] + [s[n]];
      forall i | 0 <= i < n && f(s[..n][i]) != 0.0
        ensures key(s[..n][i]) in keys
      {
        assert s[..n][i] == s[i];
      }
      SumKeyedCovers(keys, s[..n], key, f);
      SumKeyedSnoc(keys, s[..n], s[n], key, f);
    }
  }

  lemma {:induction false} SumKeyedEmpty<T>(keys: seq<string>, key: T -> string, f: T -> real)
    ensures SumKeyed(keys, [], key, f) == 0.0
    decreases |keys|
  {
    if keys != [] {
      SumKeyedEmpty(keys[..|keys| - 1], key, f);
    }
  }

  // ---------------------------------------------------------------
  // Stable sorting by a numeric key, ascending. The views sort descending
  // by sorting on the negated key.

  predicate SortedBy<T>(s: seq<T>, key: T -> real) {
    forall i, j :: 0 <= i < j < |s| ==> key(s[i]) <= key(s[j])
  }

  /** Insert x before the first element whose key is not smaller. */
  function InsertBy<T>(x: T, s: seq<T>, key: T -> real): seq<T> {
    if s == [] then [x]
    else if key(x) <= key(s[0]) then [x] + s
    else [s[0]] + InsertBy(x, s[1..], key)
  }

  lemma {:induction false} InsertByPermutes<T>(x: T, s: seq<T>, key: T -> real)
    ensures multiset(InsertBy(x, s, key)) == multiset(s) + multiset{x}
  {
    if s != [] && key(x) > key(s[0]) {
      InsertByPermutes(x, s[1..], key);
      assert s == [s[0]] + s[1..];
    }
  }

  /** Inserting into a sorted list keeps it sorted; the new head is x or the old head. */
  lemma {:induction false} InsertBySorted<T>(x: T, s: seq<T>, key: T -> real)
    requires SortedBy(s, key)
    ensures |InsertBy(x, s, key)| == |s| + 1
    ensures var r := InsertBy(x, s, key); r[0] == x || (s != [] && r[0] == s[0])
    ensures SortedBy(InsertBy(x, s, key), key)
  {
    if s != [] && key(x) > key(s[0]) {
      InsertBySorted(x, s[1..], key);
    }
  }

  /**
   * Insertion sort: ascending by key and a permutation of the input. Elements
   * with equal keys keep their input order, as in a stable sort.
   */
  function SortBy<T>(s: seq<T>, key: T -> real): (r: seq<T>)
    ensures SortedBy(r, key) && multiset(r) == multiset(s) && |r| == |s|
  {
    if s == [] then []
    else
      var rest := SortBy(s[1..], key);
      assert s == [s[0]] + s[1..];
      InsertBySorted(s[0], rest, key);
      InsertByPermutes(s[0], rest, key);
      InsertBy(s[0], rest, key)
  }

  /** A prefix is drawn from the list as a sub-multiset. */
  lemma TakeSubMultiset<T>(s: seq<T>, n: nat)
    ensures multiset(Take(s, n)) <= multiset(s)
  {
    var r := Take(s, n);
    assert s == r + s[|r|..];
    assert multiset(s) == multiset(r) + multiset(s[|r|..]);
  }

  /** A suffix is drawn from the list as a sub-multiset. */
  lemma TakeLastSubMultiset<T>(s: seq<T>, n: nat)
    ensures multiset(TakeLast(s, n)) <= multiset(s)
  {
    var r := TakeLast(s, n);
    assert s == s[..|s| - |r|] + r;
    assert multiset(s) == multiset(s[..|s| - |r|]) + multiset(r);
  }

  /**
   * The first n of the sorted list: sorted, drawn from the input, and any
   * element left out has a key no smaller than every one kept, with n kept.
   */
  lemma TakeSortedFacts<T>(s: seq<T>, key: T -> real, n: nat)
    ensures var r := Take(SortBy(s, key), n);
      SortedBy(r, key) &&
      |r| == (if |s| < n then |s| else n) && multiset(r) <= multiset(s) &&
      (forall i :: 0 <= i < |r| ==> r[i] in s) &&
      (forall x :: x in s && x !in r ==> |r| == n && forall i :: 0 <= i < |r| ==> key(r[i]) <= key(x))
  {
    var sorted := SortBy(s, key);
    var r := Take(sorted, n);
    TakeSubMultiset(sorted, n);
    assert multiset(r) <= multiset(s);
    forall i | 0 <= i < |r|
      ensures r[i] in s
    {
      assert r[i] in multiset(r);
    }
    forall x | x in s && x !in r
      ensures |r| == n && forall i :: 0 <= i < |r| ==> key(r[i]) <= key(x)
    {
      assert x in multiset(s);
      assert x in multiset(sorted);
      TakeSortedLeftOut(sorted, key, n, x);
    }
  }

  /** An element of a sorted list missing from its first n is keyed no lower than those n. */
  lemma TakeSortedLeftOut<T>(sorted: seq<T>, key: T -> real, n: nat, x: T)
    requires SortedBy(sorted, key) && x in sorted && x !in Take(sorted, n)
    ensures |Take(sorted, n)| == n
    ensures forall i :: 0 <= i < |Take(sorted, n)| ==> key(Take(sorted, n)[i]) <= key(x)
  {
    var r := Take(sorted, n);
    var k :| 0 <= k < |sorted| && sorted[k] == x;
    assert forall m :: 0 <= m < |r| ==> r[m] == sorted[m];
    forall i | 0 <= i < |r|
      ensures key(r[i]) <= key(x)
    {
      assert r[i] == sorted[i];
    }
  }

  /** A suffix of a sorted list is sorted, and nothing before it is later than anything in it. */
  lemma SortedSuffix<T>(t: seq<T>, key: T -> real, d: nat)
    requires SortedBy(t, key) && d <= |t|
    ensures SortedBy(t[d..], key)
    ensures forall k, i :: 0 <= k < d && 0 <= i < |t| - d ==> key(t[k]) <= key(t[d..][i])
  {
    var u := t[d..];
    forall i, j | 0 <= i < j < |u|
      ensures key(u[i]) <= key(u[j])
    {
      assert u[i] == t[d + i] && u[j] == t[d + j];
    }
    forall k, i | 0 <= k < d && 0 <= i < |u|
      ensures key(t[k]) <= key(u[i])
    {
      assert u[i] == t[d + i];
    }
  }

  /** `sort(...).slice(-n)`: the last n of the sorted list; anything left out is not later than what is kept. */
  lemma TakeLastSortedFacts<T>(s: seq<T>, key: T -> real, n: nat)
    ensures var r := TakeLast(SortBy(s, key), n);
      SortedBy(r, key) &&
      (forall i :: 0 <= i < |r| ==> r[i] in s) &&
      (forall x :: x in s && x !in r ==> |r| == n && forall i :: 0 <= i < |r| ==> key(x) <= key(r[i]))
  {
    var sorted := SortBy(s, key);
    var r := TakeLast(sorted, n);
    var d := |sorted| - |r|;
    SortedSuffix(sorted, key, d);
    TakeLastSubMultiset(sorted, n);
    forall i | 0 <= i < |r|
      ensures r[i] in s
    {
      assert r[i] in multiset(r);
    }
    forall x | x in s && x !in r
      ensures |r| == n && forall i :: 0 <= i < |r| ==> key(x) <= key(r[i])
    {
      assert x in multiset(s);
      assert x in multiset(sorted);
      TakeLastSortedLeftOut(sorted, key, n, x);
    }
  }

  /** An element of a sorted list missing from its last n is keyed no higher than those n. */
  lemma TakeLastSortedLeftOut<T>(sorted: seq<T>, key: T -> real, n: nat, x: T)
    requires SortedBy(sorted, key) && x in sorted && x !in TakeLast(sorted, n)
    ensures |TakeLast(sorted, n)| == n
    ensures forall i :: 0 <= i < |TakeLast(sorted, n)| ==> key(x) <= key(TakeLast(sorted, n)[i])
  {
    var r := TakeLast(sorted, n);
    var d := |sorted| - |r|;
    var k :| 0 <= k < |sorted| && sorted[k] == x;
    assert forall m :: d <= m < |sorted| ==> sorted[m] == r[m - d];
    forall i | 0 <= i < |r|
      ensures key(x) <= key(r[i])
    {
      assert r[i] == sorted[d + i];
    }
  }

  /** Strictly increasing by an integer key. */
  predicate Increasing<T>(s: seq<T>, key: T -> int) {
    forall i, j :: 0 <= i < j < |s| ==> key(s[i]) < key(s[j])
  }

  /** Filtering keeps the order of what it keeps. */
  lemma {:induction false} FilterIncreasing<T>(s: seq<T>, p: T -> bool, key: T -> int)
    requires Increasing(s, key)
    ensures Increasing(Filter(s, p), key)
    decreases |s|
  {
    if s != [] {
      var prefix := s[..|s| - 1];
      var last := s[|s| - 1];
      FilterIncreasing(prefix, p, key);
      forall x | x in prefix
        ensures key(x) < key(last)
      {
        var j :| 0 <= j < |prefix| && prefix[j] == x;
        assert s[j] == x;
      }
    }
  }

  // ---------------------------------------------------------------
  // String order: `<` on strings, the default order of Array.prototype.sort
  // for strings (compared character by character).

  predicate StrLe(a: string, b: string) {
    if a == [] then true
    else if b == [] then false
    else if a[0] < b[0] then true
    else if a[0] > b[0] then false
    else StrLe(a[1..], b[1..])
  }

  lemma {:induction false} StrLeTotal(a: string, b: string)
    ensures StrLe(a, b) || StrLe(b, a)
    decreases |a|
  {
    if a != [] && b != [] && a[0] == b[0] {
      StrLeTotal(a[1..], b[1..]);
    }
  }

  lemma {:induction false} StrLeTransitive(a: string, b: string, c: string)
    requires StrLe(a, b) && StrLe(b, c)
    ensures StrLe(a, c)
    decreases |a|
  {
    if a != [] && b != [] && c != [] && a[0] == b[0] && b[0] == c[0] {
      StrLeTransitive(a[1..], b[1..], c[1..]);
    }
  }

  lemma {:induction false} StrLeAntisymmetric(a: string, b: string)
    requires StrLe(a, b) && StrLe(b, a)
    ensures a == b
    decreases |a|
  {
    if a != [] && b != [] {
      StrLeAntisymmetric(a[1..], b[1..]);
      assert a == [a[0]] + a[1..] && b == [b[0]] + b[1..];
    }
  }

  predicate StrSorted(s: seq<string>) {
    forall i, j :: 0 <= i < j < |s| ==> StrLe(s[i], s[j])
  }

  function InsertStr(x: string, s: seq<string>): seq<string> {
    if s == [] then [x]
    else if StrLe(x, s[0]) then [x] + s
    else [s[0]] + InsertStr(x, s[1..])
  }

  lemma {:induction false} InsertStrPermutes(x: string, s: seq<string>)
    ensures multiset(InsertStr(x, s)) == multiset(s) + multiset{x}
  {
    if s != [] && !StrLe(x, s[0]) {
      InsertStrPermutes(x, s[1..]);
      assert s == [s[0]] + s[1..];
    }
  }

  lemma {:induction false} InsertStrSorted(x: string, s: seq<string>)
    requires StrSorted(s)
    ensures |InsertStr(x, s)| == |s| + 1
    ensures var r := InsertStr(x, s); r[0] == x || (s != [] && r[0] == s[0])
    ensures StrSorted(InsertStr(x, s))
  {
    if s == [] {
    } else if StrLe(x, s[0]) {
      forall i | 0 < i < |s|
        ensures StrLe(x, s[i])
      {
        StrLeTransitive(x, s[0], s[i]);
      }
    } else {
      StrLeTotal(x, s[0]);
      InsertStrSorted(x, s[1..]);
      var rest := InsertStr(x, s[1..]);
      assert StrLe(s[0], rest[0]);
      forall i | 0 < i < |rest|
        ensures StrLe(s[0], rest[i])
      {
        StrLeTransitive(s[0], rest[0], rest[i]);
      }
    }
  }

  /** `[...keys].sort()` on strings: ascending and a permutation of the input. */
  function SortStrings(s: seq<string>): (r: seq<string>)
    ensures StrSorted(r) && multiset(r) == multiset(s) && |r| == |s|
  {
    if s == [] then []
    else
      var rest := SortStrings(s[1..]);
      assert s == [s[0]] + s[1..];
      InsertStrSorted(s[0], rest);
      InsertStrPermutes(s[0], rest);
      InsertStr(s[0], rest)
  }
}
