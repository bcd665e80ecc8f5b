/** A stable sort into descending order of an integer key: Python's
    `list.sort(key=..., reverse=True)` and JavaScript's `Array.prototype.sort`
    with a comparator `(a, b) => key(b) - key(a)`. Both are stable, so
    elements with equal keys keep their input order. */
module StableSort {

  /** Keys never increase from left to right. */
  predicate NonIncreasing<T>(s: seq<T>, key: T -> int) {
    forall i, j :: 0 <= i < j < |s| ==> key(s[i]) >= key(s[j])
  }

  /** The elements of `s` whose key is `k`, in their order in `s`. */
  function WithKey<T>(s: seq<T>, key: T -> int, k: int): seq<T> {
    if |s| == 0 then []
    else (if key(s[0]) == k then [s[0]] else []) + WithKey(s[1..], key, k)
  }

  /** `WithKey` of a sequence with one element in front. */
  lemma WithKeyCons<T>(x: T, s: seq<T>, key: T -> int, k: int)
    ensures WithKey([x] + s, key, k) == (if key(x) == k then [x] else []) + WithKey(s, key, k)
  {
    assert ([x] + s)[0] == x;
    assert ([x] + s)[1..] == s;
  }

  /** Putting an element with a larger key in front of both sides keeps `x`'s
      place among the elements with its key. */
  lemma WithKeyBehind<T>(x: T, y: T, t: seq<T>, rest: seq<T>, key: T -> int, k: int)
    requires key(y) > key(x)
    requires WithKey(t, key, k) == (if key(x) == k then [x] else []) + WithKey(rest, key, k)
    ensures WithKey([y] + t, key, k) == (if key(x) == k then [x] else []) + WithKey([y] + rest, key, k)
  {
    WithKeyCons(y, t, key, k);
    WithKeyCons(y, rest, key, k);
    if key(x) == k {
      assert key(y) != k;
    }
  }

  /** Puts `x` in front of the first element whose key is not larger than its
      own, so `x` precedes every element of `s` with the same key. */
  function Insert<T>(x: T, s: seq<T>, key: T -> int): (r: seq<T>)
    requires NonIncreasing(s, key)
    ensures NonIncreasing(r, key)
    ensures multiset(r) == multiset(s) + multiset{x}
    ensures forall k :: WithKey(r, key, k) == (if key(x) == k then [x] else []) + WithKey(s, key, k)
  {
    if |s| == 0 || key(s[0]) <= key(x) then
      var r := [x] + s;
      forall k ensures WithKey(r, key, k) == (if key(x) == k then [x] else []) + WithKey(s, key, k) {
        WithKeyCons(x, s, key, k);
      }
      r
    else
      var t := Insert(x, s[1..], key);
      InsertBehind(x, s, t, key);
      [s[0]] + t
  }

  /** The recursive case of `Insert`: `x` went into the tail, behind the
      larger head. */
  lemma InsertBehind<T>(x: T, s: seq<T>, t: seq<T>, key: T -> int)
    requires |s| > 0 && key(s[0]) > key(x) && NonIncreasing(s, key)
    requires NonIncreasing(t, key)
    requires multiset(t) == multiset(s[1..]) + multiset{x}
    requires forall k :: WithKey(t, key, k) == (if key(x) == k then [x] else []) + WithKey(s[1..], key, k)
    ensures NonIncreasing([s[0]] + t, key)
    ensures multiset([s[0]] + t) == multiset(s) + multiset{x}
    ensures forall k :: WithKey([s[0]] + t, key, k) == (if key(x) == k then [x] else []) + WithKey(s, key, k)
  {
    assert s == [s[0]] + s[1..];
    InsertBehindOrder(x, s, t, key);
    forall k ensures WithKey([s[0]] + t, key, k) == (if key(x) == k then [x] else []) + WithKey(s, key, k) {
      WithKeyBehind(x, s[0], t, s[1..], key, k);
    }
  }

  /** Every element of the tail is drawn from `s[1..]` or is `x`, so none
      outranks the head. */
  lemma InsertBehindOrder<T>(x: T, s: seq<T>, t: seq<T>, key: T -> int)
    requires |s| > 0 && key(s[0]) > key(x) && NonIncreasing(s, key)
    requires NonIncreasing(t, key)
    requires multiset(t) == multiset(s[1..]) + multiset{x}
    ensures NonIncreasing([s[0]] + t, key)
  {
    forall i | 0 <= i < |t|
      ensures key(s[0]) >= key(t[i])
    {
      assert t[i] in multiset(t);
      if t[i] != x {
        assert t[i] in s[1..];
      }
    }
  }

  /** The input in non-increasing key order; equal keys keep their input order. */
  function SortDesc<T>(s: seq<T>, key: T -> int): (r: seq<T>)
    ensures NonIncreasing(r, key)
    ensures multiset(r) == multiset(s)
    ensures |r| == |s|
    ensures forall k :: WithKey(r, key, k) == WithKey(s, key, k)
  {
    if |s| == 0 then []
    else
      var t := SortDesc(s[1..], key);
      var r := Insert(s[0], t, key);
      assert s == [s[0]] + s[1..];
      assert |r| == |multiset(r)|;
      forall k ensures WithKey(r, key, k) == WithKey(s, key, k) {
        WithKeyCons(s[0], s[1..], key, k);
      }
      r
  }

  /** Sorting a sequence that is already in order changes nothing; in
      particular sorting twice is sorting once. */
  lemma {:induction false} SortDescOfSorted<T>(s: seq<T>, key: T -> int)
    requires NonIncreasing(s, key)
    ensures SortDesc(s, key) == s
  {
    if |s| > 0 {
      SortDescOfSorted(s[1..], key);
      assert s == [s[0]] + s[1..];
    }
  }

  lemma SortDescIdempotent<T>(s: seq<T>, key: T -> int)
    ensures SortDesc(SortDesc(s, key), key) == SortDesc(s, key)
  {
    SortDescOfSorted(SortDesc(s, key), key);
  }

  /** No two elements of `s` share a name. */
  predicate UniqueBy<T, K(==)>(s: seq<T>, name: T -> K) {
    forall i, j :: 0 <= i < j < |s| ==> name(s[i]) != name(s[j])
  }

  /** With unique names every value occurs at most once. */
  lemma {:induction false} UniqueOccursOnce<T, K>(s: seq<T>, name: T -> K, x: T)
    requires UniqueBy(s, name)
    ensures multiset(s)[x] <= 1
  {
    if |s| > 0 {
      UniqueOccursOnce(s[1..], name, x);
      assert s == [s[0]] + s[1..];
      assert forall j :: 0 <= j < |s| - 1 ==> s[1..][j] == s[j + 1];
      if s[0] == x {
        assert x !in s[1..];
      }
    }
  }

  /** A value at two different positions occurs at least twice. */
  lemma TwiceOccurs<T>(s: seq<T>, i: nat, j: nat)
    requires i < j < |s| && s[i] == s[j]
    ensures multiset(s)[s[i]] >= 2
  {
    assert s == s[..j] + [s[j]] + s[j + 1..];
    assert s[i] in s[..j];
  }

  /** Rearranging a sequence with unique names keeps the names unique. */
  lemma PermutationKeepsUnique<T, K>(a: seq<T>, b: seq<T>, name: T -> K)
    requires UniqueBy(a, name)
    requires multiset(a) == multiset(b)
    ensures UniqueBy(b, name)
  {
    forall i, j | 0 <= i < j < |b|
      ensures name(b[i]) != name(b[j])
    {
      assert b[i] in multiset(a) && b[j] in multiset(a);
      var p :| 0 <= p < |a| && a[p] == b[i];
      var q :| 0 <= q < |a| && a[q] == b[j];
      if b[i] == b[j] {
        TwiceOccurs(b, i, j);
        UniqueOccursOnce(a, name, b[i]);
        assert false;
      } else {
        assert p != q;
      }
    }
  }
}
