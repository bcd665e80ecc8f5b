/** The "Hot Leads by Country" chart: how many leads scoring at least 70 each
    country has, one slice per country in first-seen order. */
module GeoChart {
  import opened Options
  import opened LeadView
  import Grouping

  /** The chart's fixed hot cut-off. */
  const HotScore := 70

  /** A lead is counted under its country when the country is truthy and the
      score (0 when absent) is at least 70. */
  function GeoKey(l: Lead): (k: Option<string>)
    ensures k.Some? <==> l.country.Some? && l.country.value != "" && ScoreOrZero(l) >= HotScore
    ensures k.Some? ==> k == l.country
  {
    if ScoreOrZero(l) < HotScore then None else TruthyKey(l.country)
  }

  function One(l: Lead): int { 1 }

  /** One slice of the pie. */
  datatype Slice = Slice(country: string, count: nat)

  /** The chart data: every country with a hot lead and how many it has. */
  function HotByCountry(leads: seq<Lead>): (data: seq<Slice>)
    ensures forall i, j :: 0 <= i < j < |data| ==> data[i].country != data[j].country
    ensures forall i :: 0 <= i < |data| ==>
              data[i].count >= 1 && data[i].count == Grouping.CountKey(leads, GeoKey, data[i].country)
    ensures forall c :: Grouping.CountKey(leads, GeoKey, c) > 0 ==>
              exists i :: 0 <= i < |data| && data[i].country == c
  {
    var bs := Grouping.Group(leads, GeoKey, One);
    var data := seq(|bs|, i requires 0 <= i < |bs| => Slice(bs[i].key, bs[i].count));
    assert forall c :: Grouping.CountKey(leads, GeoKey, c) > 0 ==>
             exists i :: 0 <= i < |data| && data[i].country == c by {
      forall c | Grouping.CountKey(leads, GeoKey, c) > 0
        ensures exists i :: 0 <= i < |data| && data[i].country == c
      {
        var j :| 0 <= j < |bs| && bs[j].key == c;
        assert data[j].country == c;
      }
    }
    data
  }

  /** Sum of the slice counts. */
  function SliceTotal(data: seq<Slice>): nat {
    if |data| == 0 then 0 else SliceTotal(data[..|data| - 1]) + data[|data| - 1].count
  }

  /** Number of leads the chart counts: hot, with a country. */
  function HotWithCountry(leads: seq<Lead>): nat {
    Grouping.KeyedCount(leads, GeoKey)
  }

  lemma {:induction false} SliceTotalIsTotalCount(bs: seq<Grouping.Bucket>)
    ensures SliceTotal(seq(|bs|, i requires 0 <= i < |bs| => Slice(bs[i].key, bs[i].count))) == Grouping.TotalCount(bs)
  {
    if |bs| > 0 {
      var n := |bs|;
      var data := seq(n, i requires 0 <= i < n => Slice(bs[i].key, bs[i].count));
      SliceTotalIsTotalCount(bs[..n - 1]);
      assert data[..n - 1] == seq(n - 1, i requires 0 <= i < n - 1 => Slice(bs[..n - 1][i].key, bs[..n - 1][i].count));
    }
  }

  /** The slices together count every hot lead with a country exactly once. */
  lemma HotByCountryTotal(leads: seq<Lead>)
    ensures SliceTotal(HotByCountry(leads)) == HotWithCountry(leads)
  {
    var bs := Grouping.Group(leads, GeoKey, One);
    SliceTotalIsTotalCount(bs);
    Grouping.GroupTotal(leads, GeoKey, One);
  }
}
