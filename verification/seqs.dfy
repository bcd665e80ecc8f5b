/** Order-keeping selection from a sequence, shared by every filter in the
    model (`filter`, `str.replace` of single characters, `.filter(Boolean)`). */
module Seqs {

  /** `ys` is `xs` with some elements dropped and the rest in the same order. */
  predicate Subsequence<T(==)>(ys: seq<T>, xs: seq<T>) {
    if |ys| == 0 then true
    else if |xs| == 0 then false
    else if ys[0] == xs[0] then Subsequence(ys[1..], xs[1..])
    else Subsequence(ys, xs[1..])
  }

  lemma {:induction false} SubsequenceRefl<T>(xs: seq<T>)
    ensures Subsequence(xs, xs)
  {
    if |xs| > 0 {
      SubsequenceRefl(xs[1..]);
    }
  }

  /** A subsequence holds no element more often than the sequence does. */
  lemma {:induction false} SubsequenceCounts<T>(ys: seq<T>, xs: seq<T>)
    requires Subsequence(ys, xs)
    ensures multiset(ys) <= multiset(xs)
  {
    if |ys| > 0 {
      assert xs == [xs[0]] + xs[1..];
      if ys[0] == xs[0] {
        SubsequenceCounts(ys[1..], xs[1..]);
        assert ys == [ys[0]] + ys[1..];
      } else {
        SubsequenceCounts(ys, xs[1..]);
      }
    }
  }
}
