/**
 * The array operations the core leans on: the stable `sort` with a numeric
 * comparator `(a, b) => key(a) - key(b)`, `filter` and `find`.
 */
module Sequences {
  import opened Types

  ghost predicate SortedBy<T>(s: seq<T>, key: T -> int) {
    forall i, j :: 0 <= i < j < |s| ==> key(s[i]) <= key(s[j])
  }

  /** Insert `x` after every element whose key is at most `key(x)`, scanning
      from the right, as one step of a stable insertion sort. */
  function Insert<T>(s: seq<T>, x: T, key: T -> int): (r: seq<T>)
    ensures |r| == |s| + 1
  {
    if s == [] || key(s[|s| - 1]) <= key(x) then s + [x]
    else Insert(s[..|s| - 1], x, key) + [s[|s| - 1]]
  }

  lemma {:induction false} InsertPermutes<T>(s: seq<T>, x: T, key: T -> int)
    ensures multiset(Insert(s, x, key)) == multiset(s) + multiset{x}
  {
    if s != [] && key(s[|s| - 1]) > key(x) {
      InsertPermutes(s[..|s| - 1], x, key);
      assert s == s[..|s| - 1] + [s[|s| - 1]];
    }
  }

  /** The result of a stable sort ascending by `key`: elements with equal keys
      keep their relative order. */
  function StableSort<T>(s: seq<T>, key: T -> int): (r: seq<T>)
    ensures |r| == |s|
  {
    if s == [] then []
    else Insert(StableSort(s[..|s| - 1], key), s[|s| - 1], key)
  }

  /** The sort is a permutation of its input. */
  lemma {:induction false} StableSortPermutes<T>(s: seq<T>, key: T -> int)
    ensures multiset(StableSort(s, key)) == multiset(s)
  {
    if s != [] {
      StableSortPermutes(s[..|s| - 1], key);
      InsertPermutes(StableSort(s[..|s| - 1], key), s[|s| - 1], key);
      assert s == s[..|s| - 1] + [s[|s| - 1]];
    }
  }

  lemma {:induction false} InsertSorted<T>(s: seq<T>, x: T, key: T -> int)
    requires SortedBy(s, key)
    ensures SortedBy(Insert(s, x, key), key)
  {
    if s == [] || key(s[|s| - 1]) <= key(x) {
    } else {
      var init, last := s[..|s| - 1], s[|s| - 1];
      InsertSorted(init, x, key);
      var t := Insert(init, x, key);
      InsertPermutes(init, x, key);
      forall y | y in t ensures key(y) <= key(last) {
        assert y in multiset(t);
        if y != x {
          assert y in multiset(init);
          var k :| 0 <= k < |init| && init[k] == y;
          assert s[k] == y;
        }
      }
    }
  }

  lemma {:induction false} StableSortSorted<T>(s: seq<T>, key: T -> int)
    ensures SortedBy(StableSort(s, key), key)
  {
    if s != [] {
      StableSortSorted(s[..|s| - 1], key);
      InsertSorted(StableSort(s[..|s| - 1], key), s[|s| - 1], key);
    }
  }

  /** Sorting a sequence that is already sorted leaves it as it is. */
  lemma {:induction false} StableSortOfSorted<T>(s: seq<T>, key: T -> int)
    requires SortedBy(s, key)
    ensures StableSort(s, key) == s
  {
    if s != [] {
      var init := s[..|s| - 1];
      StableSortOfSorted(init, key);
      assert s == init + [s[|s| - 1]];
    }
  }

  /** The elements of `s` whose key is exactly `k`, in their order in `s`. */
  function WithKey<T>(s: seq<T>, key: T -> int, k: int): (r: seq<T>)
    ensures |r| <= |s|
    ensures forall i :: 0 <= i < |r| ==> r[i] in s && key(r[i]) == k
  {
    if s == [] then []
    else WithKey(s[..|s| - 1], key, k) + (if key(s[|s| - 1]) == k then [s[|s| - 1]] else [])
  }

  lemma {:induction false} WithKeyAppend<T>(a: seq<T>, b: seq<T>, key: T -> int, k: int)
    ensures WithKey(a + b, key, k) == WithKey(a, key, k) + WithKey(b, key, k)
  {
    if b != [] {
      var ab := a + b;
      assert ab[..|ab| - 1] == a + b[..|b| - 1];
      WithKeyAppend(a, b[..|b| - 1], key, k);
    } else {
      assert a + b == a;
    }
  }

  lemma {:induction false} WithKeyInsert<T>(s: seq<T>, x: T, key: T -> int, k: int)
    ensures WithKey(Insert(s, x, key), key, k)
         == WithKey(s, key, k) + (if key(x) == k then [x] else [])
  {
    if s == [] || key(s[|s| - 1]) <= key(x) {
      WithKeyAppend(s, [x], key, k);
    } else {
      var init, last := s[..|s| - 1], s[|s| - 1];
      WithKeyInsert(init, x, key, k);
      WithKeyAppend(Insert(init, x, key), [last], key, k);
      assert s == init + [last];
      WithKeyAppend(init, [last], key, k);
    }
  }

  /** Stability: among elements with any one key, the sort keeps the input order. */
  lemma {:induction false} StableSortIsStable<T>(s: seq<T>, key: T -> int, k: int)
    ensures WithKey(StableSort(s, key), key, k) == WithKey(s, key, k)
  {
    if s != [] {
      var init, last := s[..|s| - 1], s[|s| - 1];
      StableSortIsStable(init, key, k);
      WithKeyInsert(StableSort(init, key), last, key, k);
    }
  }

  function Reverse<T>(s: seq<T>): (r: seq<T>)
    ensures |r| == |s|
    ensures forall i :: 0 <= i < |s| ==> r[i] == s[|s| - 1 - i]
  {
    if s == [] then [] else [s[|s| - 1]] + Reverse(s[..|s| - 1])
  }

  lemma {:induction false} InsertBeforeLarger<T>(s: seq<T>, x: T, key: T -> int)
    requires forall i :: 0 <= i < |s| ==> key(x) < key(s[i])
    ensures Insert(s, x, key) == [x] + s
  {
    if s != [] {
      var init := s[..|s| - 1];
      InsertBeforeLarger(init, x, key);
      assert s == init + [s[|s| - 1]];
    }
  }

  /** A stable sort of a sequence whose keys strictly decrease reverses it. */
  lemma {:induction false} StableSortOfStrictlyDecreasing<T>(s: seq<T>, key: T -> int)
    requires forall i, j :: 0 <= i < j < |s| ==> key(s[i]) > key(s[j])
    ensures StableSort(s, key) == Reverse(s)
  {
    if s != [] {
      var init, last := s[..|s| - 1], s[|s| - 1];
      StableSortOfStrictlyDecreasing(init, key);
      StableSortPermutes(init, key);
      InsertBeforeLarger(Reverse(init), last, key);
    }
  }

  /** `sort` in place on the caller's array, as an insertion sort; equal keys
      stay in input order. */
  method SortInPlace<T>(a: array<T>, key: T -> int)
    modifies a
    ensures a[..] == StableSort(old(a[..]), key)
  {
    ghost var orig := a[..];
    var i := 0;
    while i < a.Length
      invariant 0 <= i <= a.Length
      invariant a[..i] == StableSort(orig[..i], key)
      invariant forall k :: i <= k < a.Length ==> a[k] == orig[k]
    {
      InsertLast(a, i, key);
      SortPrefixStep(orig, i, key);
      i := i + 1;
    }
    assert orig[..a.Length] == orig;
  }

  lemma SortPrefixStep<T>(s: seq<T>, i: nat, key: T -> int)
    requires i < |s|
    ensures StableSort(s[..i + 1], key) == Insert(StableSort(s[..i], key), s[i], key)
  {
    assert s[..i + 1][..i] == s[..i];
  }

  /** One pass of the insertion sort: swaps `a[i]` left past every larger key. */
  method InsertLast<T>(a: array<T>, i: nat, key: T -> int)
    requires i < a.Length
    modifies a
    ensures a[..i + 1] == Insert(old(a[..i]), old(a[i]), key)
    ensures forall k :: i < k < a.Length ==> a[k] == old(a[k])
  {
    var x := a[i];
    ghost var sorted := a[..i];
    ghost var target := Insert(sorted, x, key);
    var j := i;
    assert sorted[..j] == sorted && sorted[j..] == [];
    assert a[..i + 1] == sorted[..j] + [x] + sorted[j..];
    while j > 0 && key(a[j - 1]) > key(x)
      invariant 0 <= j <= i
      invariant a[..i + 1] == sorted[..j] + [x] + sorted[j..]
      invariant forall k :: i < k < a.Length ==> a[k] == old(a[k])
      invariant target == Insert(sorted[..j], x, key) + sorted[j..]
    {
      InsertShiftsLarger(sorted, j, x, key);
      ghost var before := a[..i + 1];
      a[j - 1], a[j] := a[j], a[j - 1];
      assert a[..i + 1] == before[j - 1 := before[j]][j := before[j - 1]];
      SwapDown(before, sorted, j, x);
      j := j - 1;
    }
    InsertStops(sorted, j, x, key);
  }

  /** Swapping `x` with its left neighbour moves it one place down. */
  lemma SwapDown<T>(before: seq<T>, s: seq<T>, j: nat, x: T)
    requires 0 < j <= |s|
    requires before == s[..j] + [x] + s[j..]
    ensures before[j - 1 := before[j]][j := before[j - 1]] == s[..j - 1] + [x] + s[j - 1..]
  {
    var after := before[j - 1 := before[j]][j := before[j - 1]];
    assert forall k :: 0 <= k < |after| ==> after[k] == (s[..j - 1] + [x] + s[j - 1..])[k];
  }

  lemma InsertShiftsLarger<T>(s: seq<T>, j: nat, x: T, key: T -> int)
    requires 0 < j <= |s|
    requires key(s[j - 1]) > key(x)
    ensures Insert(s[..j], x, key) + s[j..] == Insert(s[..j - 1], x, key) + s[j - 1..]
  {
    var p, q := s[..j], s[..j - 1];
    assert p[..|p| - 1] == q && p[|p| - 1] == s[j - 1];
    assert Insert(p, x, key) == Insert(q, x, key) + [s[j - 1]];
    assert [s[j - 1]] + s[j..] == s[j - 1..];
    assert Insert(q, x, key) + [s[j - 1]] + s[j..] == Insert(q, x, key) + ([s[j - 1]] + s[j..]);
  }

  lemma InsertStops<T>(s: seq<T>, j: nat, x: T, key: T -> int)
    requires j <= |s|
    requires j == 0 || key(s[j - 1]) <= key(x)
    ensures Insert(s[..j], x, key) == s[..j] + [x]
  {
  }

  /** Two sequences with the same elements, counted with multiplicity, have the same members. */
  lemma PermutationMembers<T>(a: seq<T>, b: seq<T>)
    requires multiset(a) == multiset(b)
    ensures forall i :: 0 <= i < |a| ==> a[i] in b
    ensures forall j :: 0 <= j < |b| ==> b[j] in a
  {
    forall i | 0 <= i < |a| ensures a[i] in b {
      assert a[i] in multiset(a);
    }
    forall j | 0 <= j < |b| ensures b[j] in a {
      assert b[j] in multiset(b);
    }
  }

  /** `sub` occurs in `s` starting at position `i`. */
  predicate OccursAt<T(==)>(s: seq<T>, sub: seq<T>, i: int) {
    0 <= i && i + |sub| <= |s| && s[i..i + |sub|] == sub
  }

  /** `s.includes(sub)` on strings: `sub` occurs somewhere in `s`. */
  predicate Contains<T(==)>(s: seq<T>, sub: seq<T>) {
    exists i :: 0 <= i <= |s| - |sub| && OccursAt(s, sub, i)
  }

  /** `filter(p)`: the elements satisfying `p`, in their order in `s`, each
      as often as it occurs there. */
  function Filter<T(==)>(s: seq<T>, p: T -> bool): (r: seq<T>)
    ensures |r| <= |s|
    ensures forall i :: 0 <= i < |r| ==> r[i] in s && p(r[i])
    ensures forall i :: 0 <= i < |s| && p(s[i]) ==> s[i] in r
  {
    if s == [] then []
    else
      assert s == s[..|s| - 1] + [s[|s| - 1]];
      Filter(s[..|s| - 1], p) + (if p(s[|s| - 1]) then [s[|s| - 1]] else [])
  }

  /** The filter keeps every passing element exactly as often as `s` holds it,
      and no failing one. */
  lemma {:induction false} FilterCounts<T>(s: seq<T>, p: T -> bool)
    ensures forall x :: x in s ==> multiset(Filter(s, p))[x] == if p(x) then multiset(s)[x] else 0
  {
    if s != [] {
      var init, last := s[..|s| - 1], s[|s| - 1];
      FilterCounts(init, p);
      assert s == init + [last];
      assert multiset(s) == multiset(init) + multiset{last};
      var tail := if p(last) then [last] else [];
      assert multiset(Filter(s, p)) == multiset(Filter(init, p)) + multiset(tail);
      forall x | x in s
        ensures multiset(Filter(s, p))[x] == if p(x) then multiset(s)[x] else 0
      {
        if x !in init {
          assert multiset(init)[x] == 0;
          assert x !in Filter(init, p);
        }
      }
    }
  }

  /** The positions of `s` whose element satisfies `p`, ascending. */
  ghost function Positions<T>(s: seq<T>, p: T -> bool): (idx: seq<nat>)
    ensures forall k :: 0 <= k < |idx| ==> idx[k] < |s| && p(s[idx[k]])
    ensures forall k, l :: 0 <= k < l < |idx| ==> idx[k] < idx[l]
    ensures forall i :: 0 <= i < |s| && p(s[i]) ==> i in idx
  {
    if s == [] then []
    else Positions(s[..|s| - 1], p) + (if p(s[|s| - 1]) then [|s| - 1] else [])
  }

  /** The filter is the sub-sequence of `s` at the passing positions, in order. */
  lemma {:induction false} FilterAtPositions<T>(s: seq<T>, p: T -> bool)
    ensures |Filter(s, p)| == |Positions(s, p)|
    ensures forall k :: 0 <= k < |Filter(s, p)| ==> Filter(s, p)[k] == s[Positions(s, p)[k]]
  {
    if s != [] {
      var init := s[..|s| - 1];
      FilterAtPositions(init, p);
      var r, idx := Filter(s, p), Positions(s, p);
      forall k | 0 <= k < |r| ensures r[k] == s[idx[k]] {
        if k < |Filter(init, p)| {
          assert r[k] == Filter(init, p)[k] && idx[k] == Positions(init, p)[k];
        }
      }
    }
  }

  /** Filtering distributes over concatenation. */
  lemma {:induction false} FilterAppend<T>(a: seq<T>, b: seq<T>, p: T -> bool)
    ensures Filter(a + b, p) == Filter(a, p) + Filter(b, p)
  {
    if b == [] {
      assert a + b == a;
    } else {
      var ab, b', last := a + b, b[..|b| - 1], b[|b| - 1];
      var tail := if p(last) then [last] else [];
      assert ab[..|ab| - 1] == a + b' && ab[|ab| - 1] == last;
      assert Filter(ab, p) == Filter(a + b', p) + tail;
      assert Filter(b, p) == Filter(b', p) + tail;
      FilterAppend(a, b', p);
    }
  }

  /** A one-element sequence is kept exactly when its element passes. */
  lemma FilterSingleton<T>(x: T, p: T -> bool)
    ensures Filter([x], p) == if p(x) then [x] else []
  {
    assert [x][..0] == [];
  }

  /** Filtering with a test every element passes keeps the sequence whole. */
  lemma {:induction false} FilterAll<T>(s: seq<T>, p: T -> bool)
    requires forall i :: 0 <= i < |s| ==> p(s[i])
    ensures Filter(s, p) == s
  {
    if s != [] {
      FilterAll(s[..|s| - 1], p);
      assert s == s[..|s| - 1] + [s[|s| - 1]];
    }
  }

  /** Elements with key `k` all pass, so the filter keeps them in order. */
  lemma {:induction false} FilterKeepsWithKey<T>(s: seq<T>, p: T -> bool, key: T -> int, k: int)
    requires forall i :: 0 <= i < |s| && key(s[i]) == k ==> p(s[i])
    ensures WithKey(Filter(s, p), key, k) == WithKey(s, key, k)
  {
    if s != [] {
      var init, last := s[..|s| - 1], s[|s| - 1];
      FilterKeepsWithKey(init, p, key, k);
      var tail := if p(last) then [last] else [];
      WithKeyAppend(Filter(init, p), tail, key, k);
    }
  }

  /** The test `key(x) >= cutoff`. */
  function AtOrAfterTest<T>(key: T -> int, cutoff: int): T -> bool {
    x => key(x) >= cutoff
  }

  /** `filter(x => key(x) >= cutoff)`: the elements at or after the cutoff, in
      their order in `s`, each as often as it occurs there. */
  function AtOrAfter<T(==)>(s: seq<T>, key: T -> int, cutoff: int): (r: seq<T>)
    ensures |r| <= |s|
    ensures forall i :: 0 <= i < |r| ==> r[i] in s && key(r[i]) >= cutoff
    ensures forall i :: 0 <= i < |s| && key(s[i]) >= cutoff ==> s[i] in r
    ensures var idx := Positions(s, AtOrAfterTest(key, cutoff));
      |r| == |idx| && forall k :: 0 <= k < |r| ==> r[k] == s[idx[k]]
  {
    FilterAtPositions(s, AtOrAfterTest(key, cutoff));
    Filter(s, AtOrAfterTest(key, cutoff))
  }

  /** Each element at or after the cutoff is kept as often as `s` holds it. */
  lemma AtOrAfterCounts<T>(s: seq<T>, key: T -> int, cutoff: int)
    ensures forall x :: x in s ==>
      multiset(AtOrAfter(s, key, cutoff))[x] == if key(x) >= cutoff then multiset(s)[x] else 0
  {
    FilterCounts(s, AtOrAfterTest(key, cutoff));
  }

  lemma AtOrAfterKeepsWithKey<T>(s: seq<T>, key: T -> int, cutoff: int, k: int)
    requires k >= cutoff
    ensures WithKey(AtOrAfter(s, key, cutoff), key, k) == WithKey(s, key, k)
  {
    FilterKeepsWithKey(s, AtOrAfterTest(key, cutoff), key, k);
  }

  lemma AtOrAfterAll<T>(s: seq<T>, key: T -> int, cutoff: int)
    requires forall i :: 0 <= i < |s| ==> key(s[i]) >= cutoff
    ensures AtOrAfter(s, key, cutoff) == s
  {
    FilterAll(s, AtOrAfterTest(key, cutoff));
  }

  /** `filter(x => key(x) >= cutoff).sort((a, b) => key(a) - key(b))`: the
      elements at or after the cutoff, ascending by key, ties in their order in `s`. */
  function SortedWindow<T(==)>(s: seq<T>, key: T -> int, cutoff: int): (r: seq<T>)
    ensures |r| <= |s|
    ensures SortedBy(r, key)
    ensures forall i :: 0 <= i < |r| ==> r[i] in s && key(r[i]) >= cutoff
    ensures forall i :: 0 <= i < |s| && key(s[i]) >= cutoff ==> s[i] in r
  {
    var recent := AtOrAfter(s, key, cutoff);
    StableSortSorted(recent, key);
    StableSortPermutes(recent, key);
    PermutationMembers(recent, StableSort(recent, key));
    StableSort(recent, key)
  }

  /** The window holds each element at or after the cutoff as often as `s` does. */
  lemma SortedWindowCounts<T>(s: seq<T>, key: T -> int, cutoff: int)
    ensures multiset(SortedWindow(s, key, cutoff)) == multiset(AtOrAfter(s, key, cutoff))
  {
    StableSortPermutes(AtOrAfter(s, key, cutoff), key);
  }

  /** Elements with equal keys keep their order in `s`. */
  lemma SortedWindowStable<T>(s: seq<T>, key: T -> int, cutoff: int, k: int)
    requires k >= cutoff
    ensures WithKey(SortedWindow(s, key, cutoff), key, k) == WithKey(s, key, k)
  {
    StableSortIsStable(AtOrAfter(s, key, cutoff), key, k);
    AtOrAfterKeepsWithKey(s, key, cutoff, k);
  }

  /** Taking the window of a window changes nothing. */
  lemma SortedWindowIdempotent<T>(s: seq<T>, key: T -> int, cutoff: int)
    ensures SortedWindow(SortedWindow(s, key, cutoff), key, cutoff) == SortedWindow(s, key, cutoff)
  {
    var w := SortedWindow(s, key, cutoff);
    AtOrAfterAll(w, key, cutoff);
    StableSortOfSorted(w, key);
  }

  /** Where a `slice` bound lands: negative bounds count from the end, and
      bounds are clamped to the sequence. */
  function SliceBound(len: nat, k: int): (r: nat)
    ensures r <= len
    ensures k < 0 && len + k >= 0 ==> r == len + k
    ensures 0 <= k <= len ==> r == k
    ensures k > len ==> r == len
    ensures k < 0 && len + k < 0 ==> r == 0
  {
    if k < 0 then (if len + k < 0 then 0 else len + k)
    else if k > len then len
    else k
  }

  /** `s.slice(start, end)`. */
  function Slice<T>(s: seq<T>, start: int, end: int): (r: seq<T>)
    ensures |r| <= |s|
    ensures var b, e := SliceBound(|s|, start), SliceBound(|s|, end);
      |r| == (if b < e then e - b else 0) && forall i :: 0 <= i < |r| ==> r[i] == s[b + i]
  {
    var b, e := SliceBound(|s|, start), SliceBound(|s|, end);
    if b < e then s[b..e] else []
  }

  /** `find(p)`: the first element satisfying `p`, or none. */
  function FindFirst<T(==)>(s: seq<T>, p: T -> bool): (r: Option<T>)
    ensures r.None? <==> forall i :: 0 <= i < |s| ==> !p(s[i])
    ensures r.Some? ==> exists k :: 0 <= k < |s| && s[k] == r.value && p(s[k])
                                      && forall j :: 0 <= j < k ==> !p(s[j])
  {
    if s == [] then None
    else if p(s[0]) then Some(s[0])
    else
      var r := FindFirst(s[1..], p);
      assert forall i :: 1 <= i < |s| ==> s[i] == s[1..][i - 1];
      if r.Some? then
        var k :| 0 <= k < |s[1..]| && s[1..][k] == r.value && p(s[1..][k])
                 && forall j :: 0 <= j < k ==> !p(s[1..][j]);
        assert s[k + 1] == r.value;
        r
      else r
  }
}
