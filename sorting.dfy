/** JavaScript's Array.prototype.sort is stable, so for a comparator of the
    form `(a, b) => key(a) - key(b)` its result is fully determined: the
    elements in non-decreasing key order, equal keys in their original
    order. SortByKey is that result, written as an insertion sort;
    a descending sort (`b.score - a.score`) is SortByKey with the negated
    key. InsertionSort computes it in place on an array. */
module Sorting {

  ghost predicate SortedByKey<T>(s: seq<T>, key: T -> real)
  {
    forall i, j :: 0 <= i < j < |s| ==> key(s[i]) <= key(s[j])
  }

  /** Puts `x` behind every element of `sorted` whose key is not greater. */
  function InsertByKey<T>(sorted: seq<T>, x: T, key: T -> real): (r: seq<T>)
    ensures |r| == |sorted| + 1
  {
    if sorted == [] || key(sorted[|sorted| - 1]) <= key(x) then sorted + [x]
    else InsertByKey(sorted[..|sorted| - 1], x, key) + [sorted[|sorted| - 1]]
  }

  /** The stable sort of `s` by ascending key. */
  function SortByKey<T>(s: seq<T>, key: T -> real): (r: seq<T>)
    ensures |r| == |s|
  {
    if s == [] then []
    else InsertByKey(SortByKey(s[..|s| - 1], key), s[|s| - 1], key)
  }

  lemma {:induction false} InsertPermutation<T>(sorted: seq<T>, x: T, key: T -> real)
    ensures multiset(InsertByKey(sorted, x, key)) == multiset(sorted) + multiset{x}
  {
    if sorted != [] && key(sorted[|sorted| - 1]) > key(x) {
      var init := sorted[..|sorted| - 1];
      assert sorted == init + [sorted[|sorted| - 1]];
      InsertPermutation(init, x, key);
    }
  }

  /** The stable sort is a permutation of its input. */
  lemma {:induction false} SortPermutation<T>(s: seq<T>, key: T -> real)
    ensures multiset(SortByKey(s, key)) == multiset(s)
  {
    if s != [] {
      assert s == s[..|s| - 1] + [s[|s| - 1]];
      SortPermutation(s[..|s| - 1], key);
      InsertPermutation(SortByKey(s[..|s| - 1], key), s[|s| - 1], key);
    }
  }

  lemma {:induction false} InsertSorted<T>(sorted: seq<T>, x: T, key: T -> real)
    requires SortedByKey(sorted, key)
    ensures SortedByKey(InsertByKey(sorted, x, key), key)
  {
    if sorted == [] || key(sorted[|sorted| - 1]) <= key(x) {
    } else {
      var init, last := sorted[..|sorted| - 1], sorted[|sorted| - 1];
      InsertSorted(init, x, key);
      InsertPermutation(init, x, key);
      var ins := InsertByKey(init, x, key);
      forall i | 0 <= i < |ins| ensures key(ins[i]) <= key(last) {
        assert ins[i] in multiset(ins);
        assert ins[i] in multiset(init) + multiset{x};
        if ins[i] != x {
          assert ins[i] in init;
        }
      }
    }
  }

  /** The stable sort is sorted. */
  lemma {:induction false} SortSorted<T>(s: seq<T>, key: T -> real)
    ensures SortedByKey(SortByKey(s, key), key)
  {
    if s != [] {
      SortSorted(s[..|s| - 1], key);
      InsertSorted(SortByKey(s[..|s| - 1], key), s[|s| - 1], key);
    }
  }

  /** Position of the first element with the least key. */
  function FirstMinIndex<T>(s: seq<T>, key: T -> real): (i: nat)
    requires |s| > 0
    ensures i < |s|
    ensures forall j :: 0 <= j < |s| ==> key(s[i]) <= key(s[j])
    ensures forall j :: 0 <= j < i ==> key(s[j]) > key(s[i])
  {
    if |s| == 1 then 0
    else
      var m := FirstMinIndex(s[..|s| - 1], key);
      if key(s[|s| - 1]) < key(s[m]) then |s| - 1 else m
  }

  lemma {:induction false} InsertHead<T>(sorted: seq<T>, x: T, key: T -> real)
    requires SortedByKey(sorted, key)
    ensures InsertByKey(sorted, x, key)[0] ==
            if sorted != [] && key(sorted[0]) <= key(x) then sorted[0] else x
  {
    if sorted != [] && key(sorted[|sorted| - 1]) > key(x) {
      var init := sorted[..|sorted| - 1];
      if init != [] {
        InsertHead(init, x, key);
        assert init[0] == sorted[0];
      }
    }
  }

  /** Stability at the head: the first element of the sorted list is the
      first element of the input among those with the least key. */
  lemma {:induction false} SortHead<T>(s: seq<T>, key: T -> real)
    requires |s| > 0
    ensures SortByKey(s, key)[0] == s[FirstMinIndex(s, key)]
  {
    var init, x := s[..|s| - 1], s[|s| - 1];
    var p := SortByKey(init, key);
    SortSorted(init, key);
    InsertHead(p, x, key);
    if |s| > 1 {
      SortHead(init, key);
      var m := FirstMinIndex(init, key);
      assert p[0] == init[m] == s[m];
    }
  }

  // Moving `x` one place left past a greater key.
  lemma {:induction false} InsertStep<T>(p: seq<T>, x: T, j: nat, key: T -> real)
    requires 0 < j <= |p| && key(p[j - 1]) > key(x)
    ensures InsertByKey(p[..j], x, key) + p[j..] == InsertByKey(p[..j - 1], x, key) + p[j - 1..]
  {
    assert p[..j][..j - 1] == p[..j - 1];
    assert p[j - 1..] == [p[j - 1]] + p[j..];
  }

  /** One step of the insertion sort: moves a[i] left past every greater key. */
  method InsertAt<T>(a: array<T>, i: nat, key: T -> real)
    requires i < a.Length
    modifies a
    ensures a[..i + 1] == InsertByKey(old(a[..i]), old(a[i]), key)
    ensures a[i + 1..] == old(a[i + 1..])
  {
    ghost var p := a[..i];
    ghost var rest := a[i + 1..];
    var x := a[i];
    var j := i;
    assert p[..j] == p && p[j..] == [];
    while j > 0 && key(a[j - 1]) > key(x)
      invariant 0 <= j <= i
      invariant forall k :: 0 <= k < j ==> a[k] == p[k]
      invariant forall k :: j < k <= i ==> a[k] == p[k - 1]
      invariant a[i + 1..] == rest
      invariant InsertByKey(p, x, key) == InsertByKey(p[..j], x, key) + p[j..]
    {
      InsertStep(p, x, j, key);
      a[j] := a[j - 1];
      j := j - 1;
    }
    a[j] := x;
    InsertDone(a[..], p, x, j, key);
  }

  // The array once `x` has stopped moving, read as a sequence.
  lemma {:induction false} InsertDone<T>(cur: seq<T>, p: seq<T>, x: T, j: nat, key: T -> real)
    requires j <= |p| < |cur|
    requires forall k :: 0 <= k < j ==> cur[k] == p[k]
    requires cur[j] == x
    requires forall k :: j < k <= |p| ==> cur[k] == p[k - 1]
    requires j == 0 || key(p[j - 1]) <= key(x)
    requires InsertByKey(p, x, key) == InsertByKey(p[..j], x, key) + p[j..]
    ensures cur[..|p| + 1] == InsertByKey(p, x, key)
  {
    InsertBehindNotGreater(p[..j], x, key);
    Assemble(cur, p, x, j);
  }

  lemma {:induction false} Assemble<T>(cur: seq<T>, p: seq<T>, x: T, j: nat)
    requires j <= |p| < |cur|
    requires forall k :: 0 <= k < j ==> cur[k] == p[k]
    requires cur[j] == x
    requires forall k :: j < k <= |p| ==> cur[k] == p[k - 1]
    ensures cur[..|p| + 1] == p[..j] + [x] + p[j..]
  {
  }

  lemma {:induction false} InsertBehindNotGreater<T>(q: seq<T>, x: T, key: T -> real)
    requires q == [] || key(q[|q| - 1]) <= key(x)
    ensures InsertByKey(q, x, key) == q + [x]
  {
  }

  lemma {:induction false} SortStep<T>(s: seq<T>, i: nat, key: T -> real)
    requires i < |s|
    ensures SortByKey(s[..i + 1], key) == InsertByKey(SortByKey(s[..i], key), s[i], key)
  {
    assert s[..i + 1][..i] == s[..i];
  }

  /** In-place stable insertion sort: `a` ends up as SortByKey of its old contents. */
  method InsertionSort<T>(a: array<T>, key: T -> real)
    modifies a
    ensures a[..] == SortByKey(old(a[..]), key)
  {
    ghost var input := a[..];
    var i := 0;
    while i < a.Length
      invariant 0 <= i <= a.Length
      invariant a[..i] == SortByKey(input[..i], key)
      invariant a[i..] == input[i..]
    {
      ghost var before := a[..];
      assert before[..i] == a[..i] && before[i] == input[i];
      InsertAt(a, i, key);
      SortStep(input, i, key);
      assert a[i + 1..] == before[i + 1..] == input[i + 1..];
      i := i + 1;
    }
    assert a[..] == a[..a.Length];
    assert input == input[..a.Length];
  }
}
