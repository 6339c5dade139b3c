/** Stable sorting by an integer key: `Array.prototype.sort` with the comparator
    `(a, b) => key(a) - key(b)`, which is stable. `SortByKey` is the specification;
    `SortInPlace` is the in-place insertion sort that meets it. */
module Sorting {
  import opened Seqs

  /** `x` inserted into `r` after every element whose key is at most its own. */
  function InsertLast<T(!new)>(x: T, r: seq<T>, key: T -> int): (o: seq<T>)
    ensures |o| == |r| + 1
    decreases |r|
  {
    if r == [] || key(r[|r| - 1]) <= key(x) then r + [x]
    else InsertLast(x, r[..|r| - 1], key) + [r[|r| - 1]]
  }

  /** Inserting adds exactly `x`. */
  lemma {:induction false} InsertLastMultiset<T(!new)>(x: T, r: seq<T>, key: T -> int)
    ensures multiset(InsertLast(x, r, key)) == multiset(r) + multiset{x}
    decreases |r|
  {
    if r != [] && key(r[|r| - 1]) > key(x) {
      InsertLastMultiset(x, r[..|r| - 1], key);
      assert r == r[..|r| - 1] + [r[|r| - 1]];
    }
  }

  /** The elements of `s` stably ordered by `key`. */
  function SortByKey<T(!new)>(s: seq<T>, key: T -> int): (r: seq<T>)
    ensures |r| == |s|
    ensures multiset(r) == multiset(s)
  {
    if s == [] then []
    else
      var init := s[..|s| - 1];
      assert s == init + [s[|s| - 1]];
      InsertLastMultiset(s[|s| - 1], SortByKey(init, key), key);
      InsertLast(s[|s| - 1], SortByKey(init, key), key)
  }

  /** Appending an element whose key bounds every other keeps a sequence ordered. */
  lemma AppendAscending<T(!new)>(o: seq<T>, y: T, key: T -> int)
    requires AscendingBy(o, key)
    requires forall k :: 0 <= k < |o| ==> key(o[k]) <= key(y)
    ensures AscendingBy(o + [y], key)
  {
    var p := o + [y];
    forall i, j | 0 <= i < j < |p| ensures key(p[i]) <= key(p[j]) {
      assert p[i] == o[i];
    }
  }

  /** A bound on every key, `x`'s included, bounds every key after inserting `x`. */
  lemma {:induction false} InsertLastBounded<T(!new)>(x: T, r: seq<T>, key: T -> int, b: int)
    requires key(x) <= b
    requires forall k :: 0 <= k < |r| ==> key(r[k]) <= b
    ensures forall k :: 0 <= k < |r| + 1 ==> key(InsertLast(x, r, key)[k]) <= b
    decreases |r|
  {
    var o := InsertLast(x, r, key);
    if r == [] || key(r[|r| - 1]) <= key(x) {
      assert o == r + [x];
      assert forall k :: 0 <= k < |r| ==> o[k] == r[k];
    } else {
      var init := r[..|r| - 1];
      InsertLastBounded(x, init, key, b);
      var p := InsertLast(x, init, key);
      assert o == p + [r[|r| - 1]];
      assert forall k :: 0 <= k < |p| ==> o[k] == p[k];
    }
  }

  lemma {:induction false} InsertLastSorted<T(!new)>(x: T, r: seq<T>, key: T -> int)
    requires AscendingBy(r, key)
    ensures AscendingBy(InsertLast(x, r, key), key)
    decreases |r|
  {
    if r == [] || key(r[|r| - 1]) <= key(x) {
      AppendAscending(r, x, key);
    } else {
      var init := r[..|r| - 1];
      var last := r[|r| - 1];
      InsertLastSorted(x, init, key);
      InsertLastBounded(x, init, key, key(last));
      AppendAscending(InsertLast(x, init, key), last, key);
    }
  }

  /** `SortByKey` orders by the key. */
  lemma {:induction false} SortByKeySorted<T(!new)>(s: seq<T>, key: T -> int)
    ensures AscendingBy(SortByKey(s, key), key)
  {
    if s != [] {
      SortByKeySorted(s[..|s| - 1], key);
      InsertLastSorted(s[|s| - 1], SortByKey(s[..|s| - 1], key), key);
    }
  }

  /** The elements whose key is `c`. */
  function HasKey<T>(key: T -> int, c: int): T -> bool {
    (y: T) => key(y) == c
  }

  lemma {:induction false} InsertLastStable<T(!new)>(x: T, r: seq<T>, key: T -> int, c: int)
    ensures Filter(InsertLast(x, r, key), HasKey(key, c)) == Filter(r, HasKey(key, c)) + Filter([x], HasKey(key, c))
    decreases |r|
  {
    var p := HasKey(key, c);
    if r == [] || key(r[|r| - 1]) <= key(x) {
      FilterAppend(r, [x], p);
    } else {
      var init := r[..|r| - 1];
      var last := r[|r| - 1];
      var o := InsertLast(x, init, key);
      assert r == init + [last];
      assert Filter([last], p) == [] || Filter([x], p) == [] by {
        assert Filter([last], p) == (if p(last) then [last] else []) + Filter([], p);
        assert Filter([x], p) == (if p(x) then [x] else []) + Filter([], p);
      }
      calc {
        Filter(InsertLast(x, r, key), p);
        Filter(o + [last], p);
        { FilterAppend(o, [last], p); }
        Filter(o, p) + Filter([last], p);
        { InsertLastStable(x, init, key, c); }
        Filter(init, p) + Filter([x], p) + Filter([last], p);
        Filter(init, p) + Filter([last], p) + Filter([x], p);
        { FilterAppend(init, [last], p); }
        Filter(r, p) + Filter([x], p);
      }
    }
  }

  /** Sorting a non-empty sequence inserts its last element into the sorted rest. */
  lemma SortByKeyLast<T(!new)>(s: seq<T>, key: T -> int)
    requires s != []
    ensures SortByKey(s, key) == InsertLast(s[|s| - 1], SortByKey(s[..|s| - 1], key), key)
  {
  }

  /** Stability: the elements sharing a key keep their relative order. */
  lemma {:induction false} SortByKeyStable<T(!new)>(s: seq<T>, key: T -> int, c: int)
    ensures Filter(SortByKey(s, key), HasKey(key, c)) == Filter(s, HasKey(key, c))
  {
    if s != [] {
      var p := HasKey(key, c);
      var init, last := s[..|s| - 1], s[|s| - 1];
      var sorted := SortByKey(init, key);
      assert s == init + [last];
      calc {
        Filter(SortByKey(s, key), p);
        { SortByKeyLast(s, key); }
        Filter(InsertLast(last, sorted, key), p);
        { InsertLastStable(last, sorted, key, c); }
        Filter(sorted, p) + Filter([last], p);
        { SortByKeyStable(init, key, c); }
        Filter(init, p) + Filter([last], p);
        { FilterAppend(init, [last], p); }
        Filter(s, p);
      }
    }
  }

  /** One unfolding of `InsertLast` when the last key is larger. */
  lemma InsertLastUnfold<T(!new)>(x: T, p: seq<T>, key: T -> int)
    requires p != [] && key(p[|p| - 1]) > key(x)
    ensures InsertLast(x, p, key) == InsertLast(x, p[..|p| - 1], key) + [p[|p| - 1]]
  {
  }

  lemma AppendShift<T>(o: seq<T>, r: seq<T>, k: nat)
    requires k < |r|
    ensures (o + [r[k]]) + r[k + 1..] == o + r[k..]
  {
    assert r[k..] == [r[k]] + r[k + 1..];
  }

  /** Shifting one more element right keeps the split of `InsertLast`. */
  lemma InsertLastShift<T(!new)>(x: T, r: seq<T>, j: nat, key: T -> int)
    requires 0 < j <= |r| && key(r[j - 1]) > key(x)
    ensures InsertLast(x, r[..j], key) + r[j..] == InsertLast(x, r[..j - 1], key) + r[j - 1..]
  {
    var p := r[..j];
    assert p[..|p| - 1] == r[..j - 1] && p[|p| - 1] == r[j - 1];
    InsertLastUnfold(x, p, key);
    AppendShift(InsertLast(x, r[..j - 1], key), r, j - 1);
  }

  /** Where the shifting stops, `x` goes. */
  lemma InsertLastStop<T(!new)>(x: T, r: seq<T>, j: nat, key: T -> int)
    requires j <= |r| && (j == 0 || key(r[j - 1]) <= key(x))
    ensures InsertLast(x, r[..j], key) + r[j..] == r[..j] + [x] + r[j..]
  {
  }

  /** When every key from `j` on is larger than `x`'s, `x` lands within `r[..j]`. */
  lemma {:induction false} InsertLastSplit<T(!new)>(x: T, r: seq<T>, j: nat, key: T -> int)
    requires j <= |r|
    requires forall k :: j <= k < |r| ==> key(r[k]) > key(x)
    ensures InsertLast(x, r, key) == InsertLast(x, r[..j], key) + r[j..]
    decreases |r| - j
  {
    if j == |r| {
      assert r[..j] == r && r[j..] == [];
    } else {
      InsertLastSplit(x, r, j + 1, key);
      InsertLastShift(x, r, j + 1, key);
    }
  }

  /** The array after one insertion step, read as a sequence. */
  lemma PlacedSlices<T>(sorted: seq<T>, x: T, j: nat, after: seq<T>)
    requires j <= |sorted| < |after| && after[j] == x
    requires forall k :: 0 <= k < j ==> after[k] == sorted[k]
    requires forall k :: j < k <= |sorted| ==> after[k] == sorted[k - 1]
    ensures after[..|sorted| + 1] == sorted[..j] + [x] + sorted[j..]
  {
    var placed := sorted[..j] + [x] + sorted[j..];
    forall k | 0 <= k <= |sorted| ensures after[k] == placed[k] {
      if k < j {
        assert placed[k] == sorted[k];
      } else if j < k {
        assert placed[k] == sorted[j..][k - j - 1];
      }
    }
  }

  /** `x` placed at `j` in `sorted`, the elements from `j` on moved one place right and
      all of them larger than `x`'s key, is `x` inserted by `InsertLast`. */
  lemma Placed<T(!new)>(sorted: seq<T>, x: T, j: nat, after: seq<T>, key: T -> int)
    requires j <= |sorted| < |after| && after[j] == x
    requires forall k :: 0 <= k < j ==> after[k] == sorted[k]
    requires forall k :: j < k <= |sorted| ==> after[k] == sorted[k - 1]
    requires forall k :: j <= k < |sorted| ==> key(sorted[k]) > key(x)
    requires j == 0 || key(sorted[j - 1]) <= key(x)
    ensures after[..|sorted| + 1] == InsertLast(x, sorted, key)
  {
    InsertLastSplit(x, sorted, j, key);
    InsertLastStop(x, sorted, j, key);
    PlacedSlices(sorted, x, j, after);
  }

  /** The shifting loop of one insertion step: the elements of `sorted`, the array's
      first `i` elements, with a key larger than `x`'s move one place right, and `j`
      is the gap they leave. */
  method ShiftRight<T(!new)>(a: array<T>, i: nat, x: T, key: T -> int, ghost sorted: seq<T>) returns (j: nat)
    requires i < a.Length && a[..i] == sorted
    modifies a
    ensures j <= i && (j == 0 || key(sorted[j - 1]) <= key(x))
    ensures forall k :: 0 <= k < j ==> a[k] == sorted[k]
    ensures forall k :: j < k <= i ==> a[k] == sorted[k - 1]
    ensures forall k :: j <= k < i ==> key(sorted[k]) > key(x)
    ensures forall k :: i < k < a.Length ==> a[k] == old(a[k])
  {
    j := i;
    while j > 0 && key(a[j - 1]) > key(x)
      invariant 0 <= j <= i
      invariant forall k :: 0 <= k < j ==> a[k] == sorted[k]
      invariant forall k :: j < k <= i ==> a[k] == sorted[k - 1]
      invariant forall k :: j <= k < i ==> key(sorted[k]) > key(x)
      invariant forall k :: i < k < a.Length ==> a[k] == old(a[k])
    {
      a[j] := a[j - 1];
      j := j - 1;
    }
  }

  /** One step of insertion sort: `a[i]` moves left past the larger keys before it. */
  method InsertAt<T(!new)>(a: array<T>, i: nat, key: T -> int)
    requires i < a.Length
    modifies a
    ensures a[..i + 1] == InsertLast(old(a[i]), old(a[..i]), key)
    ensures a[i + 1..] == old(a[i + 1..])
  {
    var x := a[i];
    ghost var sorted := a[..i];
    var j := ShiftRight(a, i, x, key, sorted);
    a[j] := x;
    Placed(sorted, x, j, a[..], key);
    assert a[..][..i + 1] == a[..i + 1];
  }

  /** Sorting one more element of `s` inserts it into the sorted prefix. */
  lemma SortByKeyPrefix<T(!new)>(s: seq<T>, i: nat, key: T -> int)
    requires i < |s|
    ensures SortByKey(s[..i + 1], key) == InsertLast(s[i], SortByKey(s[..i], key), key)
  {
    assert s[..i + 1][..i] == s[..i];
  }

  /** One pass of the insertion sort extends the sorted prefix by one element. */
  lemma SortStep<T(!new)>(s: seq<T>, i: nat, key: T -> int, before: seq<T>, after: seq<T>)
    requires i < |s| == |before| == |after|
    requires before[..i] == SortByKey(s[..i], key) && before[i..] == s[i..]
    requires after[..i + 1] == InsertLast(before[i], before[..i], key) && after[i + 1..] == before[i + 1..]
    ensures after[..i + 1] == SortByKey(s[..i + 1], key) && after[i + 1..] == s[i + 1..]
  {
    SortByKeyPrefix(s, i, key);
    assert before[i] == before[i..][0] == s[i];
    assert before[i + 1..] == before[i..][1..];
  }

  /** Insertion sort in place. */
  method SortInPlace<T(!new)>(a: array<T>, key: T -> int)
    modifies a
    ensures a[..] == SortByKey(old(a[..]), key)
  {
    ghost var s := a[..];
    for i := 0 to a.Length
      invariant a[..i] == SortByKey(s[..i], key)
      invariant a[i..] == s[i..]
    {
      ghost var before := a[..];
      assert before[..i] == a[..i] && before[i..] == a[i..];
      InsertAt(a, i, key);
      assert a[..][..i + 1] == a[..i + 1] && a[..][i + 1..] == a[i + 1..];
      SortStep(s, i, key, before, a[..]);
    }
    assert a[..] == a[..a.Length];
    assert s == s[..a.Length];
  }
}
