/**
 * `Array.prototype.sort` with a numeric comparator `(a, b) => key(a) - key(b)`,
 * which JavaScript guarantees to be stable.  The in-place method is an insertion
 * sort proved equal to the functional `SortBy`; the lemmas say what `SortBy`
 * promises: ascending keys, and within one key the input order.
 */
module StableSort {

  /** The elements of s whose key is k, in their order in s */
  function WithKey<T>(s: seq<T>, key: T -> real, k: real): seq<T> {
    if s == [] then []
    else WithKey(s[..|s| - 1], key, k) + (if key(s[|s| - 1]) == k then [s[|s| - 1]] else [])
  }

  predicate SortedBy<T>(s: seq<T>, key: T -> real) {
    forall i, j :: 0 <= i < j < |s| ==> key(s[i]) <= key(s[j])
  }

  /** x placed after every element of t whose key is not larger than its own */
  function Insert<T>(x: T, t: seq<T>, key: T -> real): (r: seq<T>)
    ensures |r| == |t| + 1
  {
    if t == [] || key(t[|t| - 1]) <= key(x) then t + [x]
    else Insert(x, t[..|t| - 1], key) + [t[|t| - 1]]
  }

  /** The stable sort of s by key, as insertion sort computes it */
  function SortBy<T>(s: seq<T>, key: T -> real): (r: seq<T>)
    ensures |r| == |s|
  {
    if s == [] then [] else Insert(s[|s| - 1], SortBy(s[..|s| - 1], key), key)
  }

  lemma {:induction false} WithKeyAppend<T>(s: seq<T>, t: seq<T>, key: T -> real, k: real)
    ensures WithKey(s + t, key, k) == WithKey(s, key, k) + WithKey(t, key, k)
  {
    if t != [] {
      assert (s + t)[..|s + t| - 1] == s + t[..|t| - 1];
      WithKeyAppend(s, t[..|t| - 1], key, k);
    } else {
      assert s + t == s;
    }
  }

  lemma {:induction false} InsertElements<T>(x: T, t: seq<T>, key: T -> real)
    ensures forall y :: y in Insert(x, t, key) <==> y == x || y in t
  {
    if t != [] && key(t[|t| - 1]) > key(x) {
      var init := t[..|t| - 1];
      InsertElements(x, init, key);
      assert t == init + [t[|t| - 1]];
    }
  }

  lemma {:induction false} InsertBounded<T>(x: T, t: seq<T>, key: T -> real, b: real)
    requires key(x) <= b && forall i :: 0 <= i < |t| ==> key(t[i]) <= b
    ensures forall i :: 0 <= i < |t| + 1 ==> key(Insert(x, t, key)[i]) <= b
  {
    if t != [] && key(t[|t| - 1]) > key(x) {
      InsertBounded(x, t[..|t| - 1], key, b);
    }
  }

  lemma {:induction false} InsertSorted<T>(x: T, t: seq<T>, key: T -> real)
    requires SortedBy(t, key)
    ensures SortedBy(Insert(x, t, key), key)
  {
    if t != [] && key(t[|t| - 1]) > key(x) {
      var init, last := t[..|t| - 1], t[|t| - 1];
      InsertSorted(x, init, key);
      InsertBounded(x, init, key, key(last));
      assert Insert(x, t, key) == Insert(x, init, key) + [last];
    }
  }

  lemma {:induction false} InsertWithKey<T>(x: T, t: seq<T>, key: T -> real, k: real)
    ensures WithKey(Insert(x, t, key), key, k) == WithKey(t, key, k) + (if key(x) == k then [x] else [])
  {
    if t == [] || key(t[|t| - 1]) <= key(x) {
      WithKeyAppend(t, [x], key, k);
      assert WithKey([x], key, k) == WithKey([], key, k) + (if key(x) == k then [x] else []);
    } else {
      var init, last := t[..|t| - 1], t[|t| - 1];
      InsertWithKey(x, init, key, k);
      WithKeyAppend(Insert(x, init, key), [last], key, k);
      assert WithKey([last], key, k) == WithKey([], key, k) + (if key(last) == k then [last] else []);
      assert t == init + [last];
      WithKeyAppend(init, [last], key, k);
    }
  }

  /** The sort puts keys in ascending order and loses and invents no element. */
  lemma {:induction false} SortBySorted<T>(s: seq<T>, key: T -> real)
    ensures SortedBy(SortBy(s, key), key)
    ensures forall y :: y in SortBy(s, key) <==> y in s
  {
    if s != [] {
      var init := s[..|s| - 1];
      SortBySorted(init, key);
      InsertSorted(s[|s| - 1], SortBy(init, key), key);
      InsertElements(s[|s| - 1], SortBy(init, key), key);
      assert s == init + [s[|s| - 1]];
    }
  }

  /** Stability: for every key, the elements with that key keep their input order. */
  lemma {:induction false} SortByStable<T>(s: seq<T>, key: T -> real, k: real)
    ensures WithKey(SortBy(s, key), key, k) == WithKey(s, key, k)
  {
    if s != [] {
      var init := s[..|s| - 1];
      SortByStable(init, key, k);
      InsertWithKey(s[|s| - 1], SortBy(init, key), key, k);
    }
  }

  /** Sorting what is already sorted changes nothing. */
  lemma {:induction false} SortByOfSorted<T>(s: seq<T>, key: T -> real)
    requires SortedBy(s, key)
    ensures SortBy(s, key) == s
  {
    if s != [] {
      var init := s[..|s| - 1];
      SortByOfSorted(init, key);
      assert s == init + [s[|s| - 1]];
    }
  }

  /** Insertion sort in place; `a` ends as the stable sort of what it held. */
  method SortInPlace<T>(a: array<T>, key: T -> real)
    modifies a
    ensures a[..] == SortBy(old(a[..]), key)
  {
    ghost var s := a[..];
    var i := 0;
    while i < a.Length
      invariant 0 <= i <= a.Length
      invariant a[..i] == SortBy(s[..i], key)
      invariant a[i..] == s[i..]
    {
      InsertInPlace(a, i, key);
      assert s[..i + 1][..i] == s[..i];
      i := i + 1;
    }
    assert s[..a.Length] == s;
  }

  /** One pass of insertion sort: a[i] sinks into the prefix a[..i] by adjacent swaps. */
  method InsertInPlace<T>(a: array<T>, i: nat, key: T -> real)
    requires i < a.Length
    modifies a
    ensures a[..i + 1] == Insert(old(a[i]), old(a[..i]), key)
    ensures a[i + 1..] == old(a[i + 1..])
  {
    ghost var sorted := a[..i];
    ghost var x := a[i];
    var j := i;
    while j > 0 && key(a[j - 1]) > key(a[j])
      invariant 0 <= j <= i
      invariant a[j] == x
      invariant a[..j] + a[j + 1..i + 1] == sorted
      invariant Insert(x, a[..j], key) + a[j + 1..i + 1] == Insert(x, sorted, key)
      invariant a[i + 1..] == old(a[i + 1..])
    {
      ghost var pre, last, post := a[..j - 1], a[j - 1], a[j + 1..i + 1];
      assert a[..j] == pre + [last];
      SinkStep(x, pre, last, post, key);
      SwapDown(a, j, i);
      j := j - 1;
    }
    assert a[..i + 1] == a[..j] + [x] + a[j + 1..i + 1];
  }

  /** Swaps a[j - 1] and a[j]: the element at j moves one place down, the rest of a[..i + 1] keeps its order. */
  method SwapDown<T>(a: array<T>, j: nat, i: nat)
    requires 0 < j <= i < a.Length
    modifies a
    ensures a[..j - 1] == old(a[..j - 1]) && a[j - 1] == old(a[j])
    ensures a[j..i + 1] == [old(a[j - 1])] + old(a[j + 1..i + 1])
    ensures a[i + 1..] == old(a[i + 1..])
  {
    a[j - 1], a[j] := a[j], a[j - 1];
    assert a[j..i + 1] == [a[j]] + a[j + 1..i + 1];
  }

  lemma SinkStep<T>(x: T, pre: seq<T>, last: T, post: seq<T>, key: T -> real)
    requires key(last) > key(x)
    ensures Insert(x, pre + [last], key) + post == Insert(x, pre, key) + ([last] + post)
    ensures (pre + [last]) + post == pre + ([last] + post)
  {
    assert (pre + [last])[..|pre|] == pre;
  }
}
