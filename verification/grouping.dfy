/** Accumulating per-key totals into a JavaScript object in a `forEach` loop,
    then reading them back with `Object.entries`: one bucket per key, in the
    order each key was first seen. Both dashboard charts aggregate this way. */
module Grouping {
  import opened Options

  /** One object entry: the key, the sum of the values added under it and the
      number of items added under it. */
  datatype Bucket = Bucket(key: string, sum: int, count: nat)

  /** No key occurs in two buckets. */
  predicate DistinctKeys(bs: seq<Bucket>) {
    forall i, j :: 0 <= i < j < |bs| ==> bs[i].key != bs[j].key
  }

  /** Number of items of `xs` filed under `k`. */
  function CountKey<T>(xs: seq<T>, keyOf: T -> Option<string>, k: string): nat {
    if |xs| == 0 then 0
    else CountKey(xs[..|xs| - 1], keyOf, k) + (if keyOf(xs[|xs| - 1]) == Some(k) then 1 else 0)
  }

  /** Sum of the values of the items of `xs` filed under `k`. */
  function SumKey<T>(xs: seq<T>, keyOf: T -> Option<string>, valueOf: T -> int, k: string): int {
    if |xs| == 0 then 0
    else SumKey(xs[..|xs| - 1], keyOf, valueOf, k) + (if keyOf(xs[|xs| - 1]) == Some(k) then valueOf(xs[|xs| - 1]) else 0)
  }

  /** Number of items of `xs` filed under some key (the others are skipped). */
  function KeyedCount<T>(xs: seq<T>, keyOf: T -> Option<string>): nat {
    if |xs| == 0 then 0
    else KeyedCount(xs[..|xs| - 1], keyOf) + (if keyOf(xs[|xs| - 1]).Some? then 1 else 0)
  }

  /** Sum of all bucket counts. */
  function TotalCount(bs: seq<Bucket>): nat {
    if |bs| == 0 then 0 else TotalCount(bs[..|bs| - 1]) + bs[|bs| - 1].count
  }

  /** Position of the bucket for `k`, or `|bs|` when there is none. */
  function IndexOfKey(bs: seq<Bucket>, k: string): (i: nat)
    ensures i <= |bs|
    ensures i < |bs| ==> bs[i].key == k
    ensures forall j :: 0 <= j < i ==> bs[j].key != k
  {
    if |bs| == 0 then 0
    else if bs[0].key == k then 0
    else
      var i := IndexOfKey(bs[1..], k);
      assert forall j :: 1 <= j < i + 1 ==> bs[j] == bs[1..][j - 1];
      i + 1
  }

  /** One step of the loop: create the entry for `k` if it is missing, then
      add `v` to its sum and one to its count. */
  function Add(bs: seq<Bucket>, k: string, v: int): (r: seq<Bucket>)
    requires DistinctKeys(bs)
    ensures DistinctKeys(r)
    ensures IndexOfKey(bs, k) < |bs| ==> |r| == |bs|
    ensures IndexOfKey(bs, k) == |bs| ==> r == bs + [Bucket(k, v, 1)]
    ensures forall i :: 0 <= i < |bs| ==> r[i].key == bs[i].key
    ensures forall i :: 0 <= i < |bs| && bs[i].key != k ==> r[i] == bs[i]
    ensures forall i :: 0 <= i < |bs| && bs[i].key == k ==> r[i] == Bucket(k, bs[i].sum + v, bs[i].count + 1)
  {
    var i := IndexOfKey(bs, k);
    if i < |bs| then bs[i := Bucket(k, bs[i].sum + v, bs[i].count + 1)]
    else bs + [Bucket(k, v, 1)]
  }

  /** `bs` is what the loop leaves after running over `xs`: distinct keys,
      and one bucket holding the count and sum of every key that occurs. */
  ghost predicate Summarises<T>(bs: seq<Bucket>, xs: seq<T>, keyOf: T -> Option<string>, valueOf: T -> int) {
    && DistinctKeys(bs)
    && (forall i :: 0 <= i < |bs| ==>
          && bs[i].count >= 1
          && bs[i].count == CountKey(xs, keyOf, bs[i].key)
          && bs[i].sum == SumKey(xs, keyOf, valueOf, bs[i].key))
    && (forall k :: CountKey(xs, keyOf, k) > 0 ==> exists i :: 0 <= i < |bs| && bs[i].key == k)
  }

  /** The entries after the loop has run over `xs`: items without a key are
      skipped, the others are added under their key. */
  function Group<T>(xs: seq<T>, keyOf: T -> Option<string>, valueOf: T -> int): (bs: seq<Bucket>)
    ensures Summarises(bs, xs, keyOf, valueOf)
  {
    if |xs| == 0 then []
    else
      var prefix := xs[..|xs| - 1];
      var before := Group(prefix, keyOf, valueOf);
      match keyOf(xs[|xs| - 1])
      case None =>
        assert forall k :: CountKey(xs, keyOf, k) == CountKey(prefix, keyOf, k);
        assert forall k :: SumKey(xs, keyOf, valueOf, k) == SumKey(prefix, keyOf, valueOf, k);
        before
      case Some(k) =>
        AddStep(xs, keyOf, valueOf, before, k);
        Add(before, k, valueOf(xs[|xs| - 1]))
  }

  /** One step of the loop keeps the summary up to date. */
  lemma AddStep<T>(xs: seq<T>, keyOf: T -> Option<string>, valueOf: T -> int, before: seq<Bucket>, k: string)
    requires |xs| > 0 && keyOf(xs[|xs| - 1]) == Some(k)
    requires Summarises(before, xs[..|xs| - 1], keyOf, valueOf)
    ensures Summarises(Add(before, k, valueOf(xs[|xs| - 1])), xs, keyOf, valueOf)
  {
    AddStepTotals(xs, keyOf, valueOf, before, k);
    AddStepKeys(xs, keyOf, valueOf, before, k);
  }

  lemma AddStepTotals<T>(xs: seq<T>, keyOf: T -> Option<string>, valueOf: T -> int, before: seq<Bucket>, k: string)
    requires |xs| > 0 && keyOf(xs[|xs| - 1]) == Some(k)
    requires Summarises(before, xs[..|xs| - 1], keyOf, valueOf)
    ensures var r := Add(before, k, valueOf(xs[|xs| - 1]));
            forall i :: 0 <= i < |r| ==>
              && r[i].count >= 1
              && r[i].count == CountKey(xs, keyOf, r[i].key)
              && r[i].sum == SumKey(xs, keyOf, valueOf, r[i].key)
  {
    var prefix := xs[..|xs| - 1];
    var v := valueOf(xs[|xs| - 1]);
    var r := Add(before, k, v);
    forall i | 0 <= i < |r|
      ensures r[i].count >= 1
      ensures r[i].count == CountKey(xs, keyOf, r[i].key)
      ensures r[i].sum == SumKey(xs, keyOf, valueOf, r[i].key)
    {
      if i == |before| {
        assert r[i] == Bucket(k, v, 1);
        assert CountKey(prefix, keyOf, k) == 0;
        SumWithoutItems(prefix, keyOf, valueOf, k);
      }
    }
  }

  lemma AddStepKeys<T>(xs: seq<T>, keyOf: T -> Option<string>, valueOf: T -> int, before: seq<Bucket>, k: string)
    requires |xs| > 0 && keyOf(xs[|xs| - 1]) == Some(k)
    requires Summarises(before, xs[..|xs| - 1], keyOf, valueOf)
    ensures var r := Add(before, k, valueOf(xs[|xs| - 1]));
            forall k' :: CountKey(xs, keyOf, k') > 0 ==> exists i :: 0 <= i < |r| && r[i].key == k'
  {
    var prefix := xs[..|xs| - 1];
    var r := Add(before, k, valueOf(xs[|xs| - 1]));
    forall k' | CountKey(xs, keyOf, k') > 0
      ensures exists i :: 0 <= i < |r| && r[i].key == k'
    {
      if k' == k {
        var i := IndexOfKey(before, k);
        if i == |before| {
          assert r[|before|].key == k;
        } else {
          assert r[i].key == k;
        }
      } else {
        assert CountKey(prefix, keyOf, k') > 0;
        var i :| 0 <= i < |before| && before[i].key == k';
        assert r[i].key == k';
      }
    }
  }

  /** A key with no items has sum 0. */
  lemma {:induction false} SumWithoutItems<T>(xs: seq<T>, keyOf: T -> Option<string>, valueOf: T -> int, k: string)
    requires CountKey(xs, keyOf, k) == 0
    ensures SumKey(xs, keyOf, valueOf, k) == 0
  {
    if |xs| > 0 {
      SumWithoutItems(xs[..|xs| - 1], keyOf, valueOf, k);
    }
  }

  /** A bucket for `k` exists exactly when some item is filed under `k`. */
  lemma GroupKeys<T>(xs: seq<T>, keyOf: T -> Option<string>, valueOf: T -> int, k: string)
    ensures (exists i :: 0 <= i < |Group(xs, keyOf, valueOf)| && Group(xs, keyOf, valueOf)[i].key == k)
            <==> CountKey(xs, keyOf, k) > 0
  {
    var bs := Group(xs, keyOf, valueOf);
    if exists i :: 0 <= i < |bs| && bs[i].key == k {
      var i :| 0 <= i < |bs| && bs[i].key == k;
      assert bs[i].count >= 1;
    }
  }

  /** The bucket counts add up to the number of items with a key: every such
      item is counted in exactly one bucket. */
  lemma {:induction false} GroupTotal<T>(xs: seq<T>, keyOf: T -> Option<string>, valueOf: T -> int)
    ensures TotalCount(Group(xs, keyOf, valueOf)) == KeyedCount(xs, keyOf)
  {
    if |xs| > 0 {
      var prefix := xs[..|xs| - 1];
      var before := Group(prefix, keyOf, valueOf);
      GroupTotal(prefix, keyOf, valueOf);
      match keyOf(xs[|xs| - 1])
      case None =>
      case Some(k) =>
        AddTotal(before, k, valueOf(xs[|xs| - 1]));
    }
  }

  /** Adding one item raises the total count by one. */
  lemma AddTotal(bs: seq<Bucket>, k: string, v: int)
    requires DistinctKeys(bs)
    ensures TotalCount(Add(bs, k, v)) == TotalCount(bs) + 1
  {
    var i := IndexOfKey(bs, k);
    if i < |bs| {
      var b := Bucket(k, bs[i].sum + v, bs[i].count + 1);
      assert Add(bs, k, v) == bs[i := b];
      TotalCountUpdate(bs, i, b);
    } else {
      assert (bs + [Bucket(k, v, 1)])[..|bs|] == bs;
    }
  }

  /** Replacing one bucket changes the total by the difference of the counts. */
  lemma {:induction false} TotalCountUpdate(bs: seq<Bucket>, i: nat, b: Bucket)
    requires i < |bs|
    ensures TotalCount(bs[i := b]) == TotalCount(bs) - bs[i].count + b.count
  {
    var n := |bs|;
    if i == n - 1 {
      assert bs[i := b][..n - 1] == bs[..n - 1];
    } else {
      TotalCountUpdate(bs[..n - 1], i, b);
      assert bs[i := b][..n - 1] == bs[..n - 1][i := b];
    }
  }
}
