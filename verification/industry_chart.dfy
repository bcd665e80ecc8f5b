/** The "Top 5 Industries by Score" chart: the mean score of each industry,
    rounded, highest first, at most five bars. */
module IndustryChart {
  import opened Options
  import opened LeadView
  import Grouping
  import StableSort

  /** `Math.round`: the nearest integer, halves rounded up. */
  function JsRound(x: real): (r: int)
    ensures r as real - 0.5 <= x < r as real + 0.5
  {
    (x + 0.5).Floor
  }

  /** No other integer satisfies `JsRound`'s contract. */
  lemma JsRoundUnique(x: real, n: int)
    requires n as real - 0.5 <= x < n as real + 0.5
    ensures n == JsRound(x)
  {
  }

  /** One bar: an industry and its rounded mean score. */
  datatype Bar = Bar(industry: string, score: int)

  function BarScore(b: Bar): int { b.score }

  function BarIndustry(b: Bar): string { b.industry }

  /** Leads without a (truthy) industry are skipped. */
  function IndustryKey(l: Lead): Option<string> {
    TruthyKey(l.industry)
  }

  /** The rounded mean score of the leads in `industry`. */
  function MeanScore(leads: seq<Lead>, industry: string): int
    requires Grouping.CountKey(leads, IndustryKey, industry) > 0
  {
    JsRound(Grouping.SumKey(leads, IndustryKey, ScoreOrZero, industry) as real
            / Grouping.CountKey(leads, IndustryKey, industry) as real)
  }

  /** The `map` step: each entry becomes a bar with its rounded mean. */
  function ToBars(bs: seq<Grouping.Bucket>): (bars: seq<Bar>)
    requires forall i :: 0 <= i < |bs| ==> bs[i].count >= 1
    ensures |bars| == |bs|
    ensures forall i :: 0 <= i < |bs| ==>
              bars[i] == Bar(bs[i].key, JsRound(bs[i].sum as real / bs[i].count as real))
  {
    seq(|bs|, i requires 0 <= i < |bs| => Bar(bs[i].key, JsRound(bs[i].sum as real / bs[i].count as real)))
  }

  /** What a list of bars must say about `leads`: one bar per industry that
      occurs, none for any other, each with that industry's rounded mean. */
  ghost predicate DescribesIndustries(bars: seq<Bar>, leads: seq<Lead>) {
    && StableSort.UniqueBy(bars, BarIndustry)
    && (forall i :: 0 <= i < |bars| ==>
          && Grouping.CountKey(leads, IndustryKey, bars[i].industry) > 0
          && bars[i].score == MeanScore(leads, bars[i].industry))
    && (forall k :: Grouping.CountKey(leads, IndustryKey, k) > 0 ==>
          exists i :: 0 <= i < |bars| && bars[i].industry == k)
  }

  /** The bars before sorting, in first-seen order of their industries. */
  function IndustryBars(leads: seq<Lead>): (bars: seq<Bar>)
    ensures DescribesIndustries(bars, leads)
  {
    var bs := Grouping.Group(leads, IndustryKey, ScoreOrZero);
    var bars := ToBars(bs);
    assert forall k :: Grouping.CountKey(leads, IndustryKey, k) > 0 ==>
             exists i :: 0 <= i < |bars| && bars[i].industry == k by {
      forall k | Grouping.CountKey(leads, IndustryKey, k) > 0
        ensures exists i :: 0 <= i < |bars| && bars[i].industry == k
      {
        var j :| 0 <= j < |bs| && bs[j].key == k;
        assert bars[j].industry == k;
      }
    }
    bars
  }

  /** Rearranging bars keeps them describing the same leads. */
  lemma DescribesPermutation(a: seq<Bar>, b: seq<Bar>, leads: seq<Lead>)
    requires DescribesIndustries(a, leads)
    requires multiset(a) == multiset(b)
    ensures DescribesIndustries(b, leads)
  {
    StableSort.PermutationKeepsUnique(a, b, BarIndustry);
    assert forall i :: 0 <= i < |b| ==> b[i] in multiset(a);
    forall k | Grouping.CountKey(leads, IndustryKey, k) > 0
      ensures exists i :: 0 <= i < |b| && b[i].industry == k
    {
      var j :| 0 <= j < |a| && a[j].industry == k;
      assert a[j] in multiset(b);
    }
  }

  /** Every industry's bar, in the order the chart sorts them: by score, highest
      first, ties in first-seen order. */
  function RankedBars(leads: seq<Lead>): (bars: seq<Bar>)
    ensures StableSort.NonIncreasing(bars, BarScore)
    ensures DescribesIndustries(bars, leads)
  {
    var unsorted := IndustryBars(leads);
    var bars := StableSort.SortDesc(unsorted, BarScore);
    DescribesPermutation(unsorted, bars, leads);
    bars
  }

  /** The chart data: the first five ranked bars. */
  function TopIndustries(leads: seq<Lead>): (data: seq<Bar>)
    ensures |data| <= 5
    ensures StableSort.NonIncreasing(data, BarScore)
    ensures StableSort.UniqueBy(data, BarIndustry)
    ensures forall i :: 0 <= i < |data| ==>
              && Grouping.CountKey(leads, IndustryKey, data[i].industry) > 0
              && data[i].score == MeanScore(leads, data[i].industry)
  {
    var bars := RankedBars(leads);
    var data := if |bars| <= 5 then bars else bars[..5];
    PrefixDescribes(bars, data, leads);
    data
  }

  /** A prefix of ranked bars is still ranked, and each of its bars is an
      industry's true mean, once. */
  lemma PrefixDescribes(bars: seq<Bar>, data: seq<Bar>, leads: seq<Lead>)
    requires StableSort.NonIncreasing(bars, BarScore) && DescribesIndustries(bars, leads)
    requires |data| <= |bars| && data == bars[..|data|]
    ensures StableSort.NonIncreasing(data, BarScore)
    ensures StableSort.UniqueBy(data, BarIndustry)
    ensures forall i :: 0 <= i < |data| ==>
              && Grouping.CountKey(leads, IndustryKey, data[i].industry) > 0
              && data[i].score == MeanScore(leads, data[i].industry)
  {
    assert forall i :: 0 <= i < |data| ==> data[i] == bars[i];
  }

  /** The chart is a true top five: an industry that occurs in the data but has
      no bar is left out only because five bars scoring at least as high are
      shown. */
  lemma TopIndustriesComplete(leads: seq<Lead>, k: string)
    requires Grouping.CountKey(leads, IndustryKey, k) > 0
    requires forall i :: 0 <= i < |TopIndustries(leads)| ==> TopIndustries(leads)[i].industry != k
    ensures |TopIndustries(leads)| == 5
    ensures forall i :: 0 <= i < 5 ==> TopIndustries(leads)[i].score >= MeanScore(leads, k)
  {
    var bars := RankedBars(leads);
    var j :| 0 <= j < |bars| && bars[j].industry == k;
    CutFromTop(bars, TopIndustries(leads), j);
  }

  /** A ranked bar missing from the first five was cut: five bars are shown
      and each scores at least as high. */
  lemma CutFromTop(bars: seq<Bar>, data: seq<Bar>, j: nat)
    requires StableSort.NonIncreasing(bars, BarScore)
    requires data == if |bars| <= 5 then bars else bars[..5]
    requires j < |bars| && forall i :: 0 <= i < |data| ==> data[i].industry != bars[j].industry
    ensures |data| == 5 && forall i :: 0 <= i < 5 ==> data[i].score >= bars[j].score
  {
    assert forall i :: 0 <= i < |data| ==> data[i] == bars[i];
    assert j < |data| ==> data[j].industry == bars[j].industry;
  }
}
