/** Sequence helpers shared by the services and the client: filtering,
    keeping the last n entries, reversing and taking a prefix. */
module Seqs {

  /** Keeps, in order, the elements that satisfy `keep` (JavaScript's `Array.prototype.filter`). */
  function Filter<T(!new)>(s: seq<T>, keep: T -> bool): (r: seq<T>)
    ensures |r| <= |s|
    ensures forall x :: x in r <==> x in s && keep(x)
    ensures forall i :: 0 <= i < |r| ==> keep(r[i])
  {
    if s == [] then []
    else (if keep(s[0]) then [s[0]] else []) + Filter(s[1..], keep)
  }

  /** `r` is obtained from `s` by deleting elements, order kept. */
  ghost predicate IsSubsequence<T(!new)>(r: seq<T>, s: seq<T>)
    decreases |s|
  {
    if r == [] then true
    else if s == [] then false
    else if r[0] == s[0] then IsSubsequence(r[1..], s[1..])
    else IsSubsequence(r, s[1..])
  }

  lemma {:induction false} FilterIsSubsequence<T(!new)>(s: seq<T>, keep: T -> bool)
    ensures IsSubsequence(Filter(s, keep), s)
  {
    if s != [] {
      FilterIsSubsequence(s[1..], keep);
      var r := Filter(s, keep);
      if keep(s[0]) {
        assert r[0] == s[0] && r[1..] == Filter(s[1..], keep);
      } else {
        assert r == Filter(s[1..], keep);
        SubsequenceOfTail(r, s);
      }
    }
  }

  lemma {:induction false} SubsequenceOfTail<T(!new)>(r: seq<T>, s: seq<T>)
    requires s != [] && IsSubsequence(r, s[1..])
    ensures IsSubsequence(r, s)
    decreases |s|, 0
  {
    if r != [] && r[0] == s[0] {
      SubsequenceDropFirst(r, s[1..]);
    }
  }

  lemma {:induction false} SubsequenceDropFirst<T(!new)>(r: seq<T>, s: seq<T>)
    requires r != [] && IsSubsequence(r, s)
    ensures IsSubsequence(r[1..], s)
    decreases |s|, 1
  {
    assert s != [];
    if r[0] == s[0] {
      if r[1..] != [] {
        SubsequenceOfTail(r[1..], s);
      }
    } else {
      SubsequenceDropFirst(r, s[1..]);
      if r[1..] != [] {
        SubsequenceOfTail(r[1..], s);
      }
    }
  }

  lemma {:induction false} FilterAppend<T(!new)>(a: seq<T>, b: seq<T>, keep: T -> bool)
    ensures Filter(a + b, keep) == Filter(a, keep) + Filter(b, keep)
  {
    if a == [] {
      assert a + b == b;
    } else {
      assert (a + b)[0] == a[0];
      assert (a + b)[1..] == a[1..] + b;
      FilterAppend(a[1..], b, keep);
    }
  }

  /** Filtering with a predicate every element satisfies changes nothing. */
  lemma {:induction false} FilterAll<T(!new)>(s: seq<T>, keep: T -> bool)
    requires forall i :: 0 <= i < |s| ==> keep(s[i])
    ensures Filter(s, keep) == s
  {
    if s != [] {
      FilterAll(s[1..], keep);
    }
  }

  /** The last `n` elements of `s` (JavaScript's `s.slice(-n)` for n > 0). */
  function KeepLast<T(!new)>(s: seq<T>, n: nat): (r: seq<T>)
    ensures |r| == if |s| <= n then |s| else n
    ensures r == s[|s| - |r|..]
  {
    if |s| <= n then s else s[|s| - n..]
  }

  function Reverse<T(!new)>(s: seq<T>): (r: seq<T>)
    ensures |r| == |s|
    ensures forall i :: 0 <= i < |s| ==> r[i] == s[|s| - 1 - i]
  {
    if s == [] then [] else Reverse(s[1..]) + [s[0]]
  }

  /** At most the first `n` elements (a database cursor's `limit(n)` for n > 0). */
  function Take<T(!new)>(s: seq<T>, n: nat): (r: seq<T>)
    ensures |r| == if |s| <= n then |s| else n
    ensures r == s[..|r|]
  {
    if |s| <= n then s else s[..n]
  }

  /** Newest-first, keep n, back to oldest-first: the last n elements. */
  lemma ReverseTakeReverse<T(!new)>(s: seq<T>, n: nat)
    ensures Reverse(Take(Reverse(s), n)) == KeepLast(s, n)
  {
    var rs := Reverse(s);
    var t := Take(rs, n);
    var r := Reverse(t);
    var k := KeepLast(s, n);
    assert |r| == |k| == |t|;
    forall i | 0 <= i < |r| ensures r[i] == k[i] {
      var j := |t| - 1 - i;
      calc {
        r[i];
        t[j];
        rs[j];
        s[|s| - 1 - j];
        k[i];
      }
    }
  }

  /** Number of elements of `s` that satisfy `keep`. */
  function Count<T(!new)>(s: seq<T>, keep: T -> bool): nat {
    |Filter(s, keep)|
  }

  /** Three predicates that partition the elements split the count. */
  lemma {:induction false} CountPartition<T(!new)>(s: seq<T>, p: T -> bool, q: T -> bool, r: T -> bool)
    requires forall x :: (p(x) || q(x) || r(x)) && !(p(x) && q(x)) && !(p(x) && r(x)) && !(q(x) && r(x))
    ensures Count(s, p) + Count(s, q) + Count(s, r) == |s|
  {
    if s != [] {
      CountPartition(s[1..], p, q, r);
    }
  }

  /** `s` is ordered by `key`, smallest first. */
  predicate AscendingBy<T(!new)>(s: seq<T>, key: T -> int) {
    forall i, j :: 0 <= i < j < |s| ==> key(s[i]) <= key(s[j])
  }

  /** `s` is ordered by `key`, largest first. */
  predicate DescendingBy<T(!new)>(s: seq<T>, key: T -> int) {
    forall i, j :: 0 <= i < j < |s| ==> key(s[i]) >= key(s[j])
  }

  /** Filtering keeps an order. */
  lemma {:induction false} FilterAscendingBy<T(!new)>(s: seq<T>, keep: T -> bool, key: T -> int)
    requires AscendingBy(s, key)
    ensures AscendingBy(Filter(s, keep), key)
  {
    if s != [] {
      FilterAscendingBy(s[1..], keep, key);
      assert forall x :: x in Filter(s[1..], keep) ==> x in s[1..];
      assert forall x :: x in s[1..] ==> key(s[0]) <= key(x);
    }
  }

  /** Reversing turns smallest-first into largest-first. */
  lemma ReverseAscendingBy<T(!new)>(s: seq<T>, key: T -> int)
    requires AscendingBy(s, key)
    ensures DescendingBy(Reverse(s), key)
  {
  }

  /** Reversing keeps the elements and their multiplicities. */
  lemma {:induction false} ReverseMultiset<T(!new)>(s: seq<T>)
    ensures multiset(Reverse(s)) == multiset(s)
  {
    if s != [] {
      ReverseMultiset(s[1..]);
      assert s == [s[0]] + s[1..];
    }
  }

  /** Reversing keeps the same elements. */
  lemma ReverseMembers<T(!new)>(s: seq<T>)
    ensures forall x :: x in Reverse(s) <==> x in s
  {
    ReverseMultiset(s);
    assert forall x :: x in Reverse(s) <==> x in multiset(Reverse(s));
  }
}
