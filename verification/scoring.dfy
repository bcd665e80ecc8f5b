/** The per-lead scorer and the batch labeller of the backend: a heuristic sum
    of six weighted signals (employee band fit, revenue band fit, industry
    match, location match, contact completeness, growth), capped at 100 and
    rounded, then tiered Hot/Warm/Cold. Floats are exact reals here. */
module Scoring {
  import opened Options
  import opened PyValues
  import opened ScoringConfig
  import Text
  import PyNumbers

  /** `_clamp01`: `max(0.0, min(1.0, x))`. */
  function ClampUnit(x: real): (r: real)
    ensures 0.0 <= r <= 1.0
    ensures 0.0 <= x <= 1.0 ==> r == x
    ensures x < 0.0 ==> r == 0.0
    ensures x > 1.0 ==> r == 1.0
  {
    var m := if 1.0 <= x then 1.0 else x;
    if 0.0 >= m then 0.0 else m
  }

  /** The power of ten a trailing K, M or B stands for (after upper-casing):
      the multipliers 1e3, 1e6 and 1e9 as decimal exponents. */
  function SuffixExponent(s: string): nat {
    if |s| == 0 then 0
    else if s[|s| - 1] == 'K' then 3
    else if s[|s| - 1] == 'M' then 6
    else if s[|s| - 1] == 'B' then 9
    else 0
  }

  /** `s` without the suffix letter `SuffixExponent` recognised. */
  function Unsuffixed(s: string): string {
    if SuffixExponent(s) == 0 then s else s[..|s| - 1]
  }

  /** `float(body)` after dropping every '$' and ',' and stripping, times ten
      to the power `e`; 0 when `float()` raises. */
  function ParsedTimes(body: string, e: nat): real {
    match PyNumbers.ParseFloat(Cleaned(body))
    case Some(x) => PyNumbers.Shift(x, e)
    case None => 0.0
  }

  /** `body` with every '$' and ',' dropped, then stripped. */
  function Cleaned(body: string): string {
    Text.Strip(Text.Without(body, {'$', ','}), Text.IsPySpace)
  }

  /** The string branch of `_to_number`: strip and upper-case, take off one
      K/M/B suffix, drop every '$' and ',', strip again, then `float()` times
      the multiplier. */
  function StrToNumber(raw: string): real {
    var s := Text.UpperAscii(Text.Strip(raw, Text.IsPySpace));
    ParsedTimes(Unsuffixed(s), SuffixExponent(s))
  }

  /** `_to_number`: None and non-finite numbers are 0, a finite number is
      itself (a bool counts as the integer 1 or 0), a string is parsed. */
  function ToNumber(v: Value): (r: real)
    ensures v.Null? ==> r == 0.0
    ensures v.NonFinite? ==> r == 0.0
    ensures v.Num? ==> r == v.x
    ensures v.Bool? ==> r == if v.b then 1.0 else 0.0
  {
    match v
    case Null => 0.0
    case Bool(b) => if b then 1.0 else 0.0
    case Num(x) => x
    case NonFinite => 0.0
    case Str(s) => StrToNumber(s)
  }

  /** Text made of digits, decimal points, dollar signs and thousands commas. */
  predicate Numeral(d: string) {
    forall i :: 0 <= i < |d| ==> PyNumbers.IsDigit(d[i]) || d[i] in {'.', '$', ','}
  }

  /** Dropping '$' and ',' from such text leaves digits and points only. */
  lemma NumeralCleaned(d: string)
    requires Numeral(d)
    ensures Cleaned(d) == Text.Without(d, {'$', ','})
  {
    var u := Text.Without(d, {'$', ','});
    if |u| > 0 {
      NumeralKept(d, 0);
      NumeralKept(d, |u| - 1);
    }
    assert Text.Trimmed(u, Text.IsPySpace);
  }

  /** A character left after dropping '$' and ',' is a digit or a point. */
  lemma NumeralKept(d: string, i: nat)
    requires Numeral(d) && i < |Text.Without(d, {'$', ','})|
    ensures PyNumbers.IsDigit(Text.Without(d, {'$', ','})[i]) || Text.Without(d, {'$', ','})[i] == '.'
  {
    var u := Text.Without(d, {'$', ','});
    var c := u[i];
    Text.WithoutCounts(d, {'$', ','});
    assert c in multiset(u);
    assert c in multiset(d);
    var j :| 0 <= j < |d| && d[j] == c;
  }

  /** Such text is already stripped and upper-cased and ends in no suffix. */
  lemma NumeralShape(d: string)
    requires Numeral(d)
    ensures Text.Strip(d, Text.IsPySpace) == d
    ensures Text.UpperAscii(d) == d
    ensures SuffixExponent(d) == 0
  {
    NumeralStripped(d);
    NumeralUpper(d);
    var c := if |d| > 0 then d[|d| - 1] else '0';
    assert c != 'K' && c != 'M' && c != 'B';
  }

  lemma NumeralStripped(d: string)
    requires Numeral(d)
    ensures Text.Strip(d, Text.IsPySpace) == d
  {
    assert |d| > 0 ==> !Text.IsPySpace(d[0]) && !Text.IsPySpace(d[|d| - 1]);
  }

  lemma NumeralUpper(d: string)
    requires Numeral(d)
    ensures Text.UpperAscii(d) == d
  {
    var u := Text.UpperAscii(d);
    assert forall i :: 0 <= i < |d| ==> u[i] == d[i];
  }

  /** A numeral with dollar signs and thousands commas reads as the value
      `float()` gives it once they are dropped: "12,345" is 12345. */
  lemma ToNumberPlain(d: string, x: real)
    requires Numeral(d) && PyNumbers.ParseFloat(Text.Without(d, {'$', ','})) == Some(x)
    ensures ToNumber(Str(d)) == x
  {
    NumeralShape(d);
    NumeralCleaned(d);
  }

  /** The upper-case suffix letter a K, M or B of either case becomes. */
  function SuffixUpper(c: char): char {
    if c == 'k' then 'K' else if c == 'm' then 'M' else if c == 'b' then 'B' else c
  }

  lemma SuffixedNumeralUpper(d: string, c: char)
    requires Numeral(d)
    requires c in {'K', 'k', 'M', 'm', 'B', 'b'}
    ensures Text.Strip(d + [c], Text.IsPySpace) == d + [c]
    ensures Text.UpperAscii(d + [c]) == d + [SuffixUpper(c)]
  {
    SuffixedNumeralStripped(d, c);
    SuffixedNumeralUpperCase(d, c);
  }

  lemma SuffixedNumeralStripped(d: string, c: char)
    requires Numeral(d)
    requires c in {'K', 'k', 'M', 'm', 'B', 'b'}
    ensures Text.Strip(d + [c], Text.IsPySpace) == d + [c]
  {
    var s := d + [c];
    assert !Text.IsPySpace(s[0]) by {
      if |d| > 0 {
        assert s[0] == d[0];
      }
    }
    assert !Text.IsPySpace(s[|s| - 1]);
  }

  lemma SuffixedNumeralUpperCase(d: string, c: char)
    requires Numeral(d)
    requires c in {'K', 'k', 'M', 'm', 'B', 'b'}
    ensures Text.UpperAscii(d + [c]) == d + [SuffixUpper(c)]
  {
    var s := d + [c];
    var u := Text.UpperAscii(s);
    forall i | 0 <= i < |d|
      ensures u[i] == d[i]
    {
      assert s[i] == d[i];
    }
    assert u[|d|] == SuffixUpper(c);
    assert u == d + [SuffixUpper(c)];
  }

  /** A numeral reads as the value `float()` gives its digits and points,
      shifted by `e` decimal places. */
  lemma ParsedTimesNumeral(d: string, x: real, e: nat)
    requires Numeral(d) && PyNumbers.ParseFloat(Text.Without(d, {'$', ','})) == Some(x)
    ensures ParsedTimes(d, e) == PyNumbers.Shift(x, e)
  {
    NumeralCleaned(d);
  }

  lemma SuffixedNumeralSplits(d: string, c: char)
    requires Numeral(d)
    requires c in {'K', 'k', 'M', 'm', 'B', 'b'}
    ensures StrToNumber(d + [c]) == ParsedTimes(d, SuffixExponent([SuffixUpper(c)]))
  {
    SuffixedNumeralUpper(d, c);
    SuffixOff(d, SuffixUpper(c));
  }

  /** A final K, M or B is the suffix, and the text before it the body. */
  lemma SuffixOff(d: string, c: char)
    requires c in {'K', 'M', 'B'}
    ensures SuffixExponent(d + [c]) == SuffixExponent([c]) != 0
    ensures Unsuffixed(d + [c]) == d
  {
    var u := d + [c];
    assert u[|u| - 1] == c;
    assert u[..|u| - 1] == d;
  }

  /** A trailing K, M or B (either case) multiplies the numeral before it by a
      thousand, a million or a billion: "$1.2M" is 1.2 million. */
  lemma ToNumberSuffix(d: string, c: char, x: real)
    requires Numeral(d) && PyNumbers.ParseFloat(Text.Without(d, {'$', ','})) == Some(x)
    requires c in {'K', 'k', 'M', 'm', 'B', 'b'}
    ensures c == 'K' || c == 'k' ==> ToNumber(Str(d + [c])) == x * 1000.0
    ensures c == 'M' || c == 'm' ==> ToNumber(Str(d + [c])) == x * 1000000.0
    ensures c == 'B' || c == 'b' ==> ToNumber(Str(d + [c])) == x * 1000000000.0
  {
    var e := SuffixExponent([SuffixUpper(c)]);
    assert ToNumber(Str(d + [c])) == PyNumbers.Shift(x, e) by {
      SuffixedNumeralSplits(d, c);
      ParsedTimesNumeral(d, x, e);
    }
    PyNumbers.ShiftThousands(x);
  }

  /** Text without a single digit cannot convert, so it reads as 0: the
      "returns 0.0 on failure" case for words such as "N/A" or "unknown". */
  lemma NoDigitReadsZero(s: string)
    requires !PyNumbers.HasDigit(s)
    ensures ToNumber(Str(s)) == 0.0
  {
    var t := Text.Strip(s, Text.IsPySpace);
    NoDigitStripped(s, Text.IsPySpace);
    var u := Text.UpperAscii(t);
    NoDigitUpper(t);
    NoDigitUnsuffixed(u);
    NoDigitCleaned(Unsuffixed(u));
  }

  lemma NoDigitStripped(s: string, ws: char -> bool)
    requires !PyNumbers.HasDigit(s)
    ensures !PyNumbers.HasDigit(Text.Strip(s, ws))
  {
    var r := Text.Strip(s, ws);
    forall i | 0 <= i < |r|
      ensures !PyNumbers.IsDigit(r[i])
    {
      assert r[i] in s;
    }
  }

  lemma NoDigitUnsuffixed(u: string)
    requires !PyNumbers.HasDigit(u)
    ensures !PyNumbers.HasDigit(Unsuffixed(u))
  {
    var v := Unsuffixed(u);
    assert forall i :: 0 <= i < |v| ==> v[i] == u[i];
  }

  /** Text without digits stays without digits once cleaned, so `float()`
      refuses it and the reading is 0. */
  lemma NoDigitCleaned(v: string)
    requires !PyNumbers.HasDigit(v)
    ensures PyNumbers.ParseFloat(Cleaned(v)).None?
  {
    NoDigitWithout(v, {'$', ','});
    NoDigitStripped(Text.Without(v, {'$', ','}), Text.IsPySpace);
  }

  lemma NoDigitUpper(s: string)
    requires !PyNumbers.HasDigit(s)
    ensures !PyNumbers.HasDigit(Text.UpperAscii(s))
  {
  }

  lemma NoDigitWithout(s: string, cs: set<char>)
    requires !PyNumbers.HasDigit(s)
    ensures !PyNumbers.HasDigit(Text.Without(s, cs))
  {
    var r := Text.Without(s, cs);
    Text.WithoutCounts(s, cs);
    forall i | 0 <= i < |r|
      ensures !PyNumbers.IsDigit(r[i])
    {
      assert r[i] in multiset(r);
      assert r[i] in multiset(s);
    }
  }

  /** The two examples of the converter's own description: thousands commas
      are dropped, and a dollar sign with an M suffix reads in millions. */
  lemma ToNumberExamples()
    ensures ToNumber(Str("12,345")) == 12345.0
    ensures ToNumber(Str("$1.2M")) == 1200000.0
  {
    CommaExample();
    DollarExample();
  }

  lemma CommaExample()
    ensures ToNumber(Str("12,345")) == 12345.0
  {
    CommaDropped();
    CommaDigits();
    CommaNumeral();
    ToNumberPlain("12,345", 12345.0);
  }

  lemma CommaDropped()
    ensures Text.Without("12,345", {'$', ','}) == "12345"
  {
    CommaText();
    assert forall i :: 0 <= i < |"345"| ==> "345"[i] !in {'$', ','};
    DropThird('1', '2', ',', "345", {'$', ','});
    CommaJoined();
  }

  /** Dropping a separator that follows two kept characters. */
  lemma DropThird(x: char, y: char, sep: char, b: string, cs: set<char>)
    requires x !in cs && y !in cs && sep in cs
    requires forall i :: 0 <= i < |b| ==> b[i] !in cs
    ensures Text.Without([x] + ([y] + ([sep] + b)), cs) == [x] + ([y] + b)
  {
    Text.WithoutCons(sep, b, cs);
    Text.WithoutCons(y, [sep] + b, cs);
    Text.WithoutCons(x, [y] + ([sep] + b), cs);
  }

  lemma CommaText()
    ensures "12,345" == ['1'] + (['2'] + ([','] + "345"))
  {
    var a := ['1'] + (['2'] + ([','] + "345"));
    assert a[0] == '1' && a[1] == '2' && a[2] == ',' && a[3] == '3' && a[4] == '4' && a[5] == '5';
  }

  lemma CommaJoined()
    ensures ['1'] + (['2'] + "345") == "12345"
  {
    var r := ['1'] + (['2'] + "345");
    assert r[0] == '1' && r[1] == '2' && r[2] == '3' && r[3] == '4' && r[4] == '5';
  }

  lemma CommaDigits()
    ensures PyNumbers.ParseFloat("12345") == Some(12345.0)
  {
    assert PyNumbers.DigitsValue("12345") == 12345 by {
      assert "12345"[..4] == "1234" && "1234"[..3] == "123" && "123"[..2] == "12" && "12"[..1] == "1";
    }
    PyNumbers.ParseFloatDigits("12345");
  }

  lemma CommaNumeral()
    ensures Numeral("12,345")
  {
    assert forall i :: 0 <= i < 6 ==> "12,345"[i] in {'1', '2', ',', '3', '4', '5'};
  }

  lemma DollarExample()
    ensures ToNumber(Str("$1.2M")) == 1200000.0
  {
    DollarSuffix();
    DollarText();
  }

  lemma DollarText()
    ensures "$1.2" + ['M'] == "$1.2M"
  {
    var a := "$1.2" + ['M'];
    assert a[0] == '$' && a[1] == '1' && a[2] == '.' && a[3] == '2' && a[4] == 'M';
  }

  lemma DollarSuffix()
    ensures ToNumber(Str("$1.2" + ['M'])) == 1.2 * 1000000.0
  {
    DollarParsed();
    DollarNumeral();
    ToNumberSuffix("$1.2", 'M', 1.2);
  }

  lemma DollarParsed()
    ensures PyNumbers.ParseFloat(Text.Without("$1.2", {'$', ','})) == Some(1.2)
  {
    DollarDropped();
    DollarPoint();
  }

  lemma DollarDropped()
    ensures Text.Without("$1.2", {'$', ','}) == "1.2"
  {
    var cs := {'$', ','};
    assert "$1.2" == ['$'] + "1.2";
    assert Text.Without("1.2", cs) == "1.2";
    Text.WithoutCons('$', "1.2", cs);
  }

  lemma DollarPoint()
    ensures PyNumbers.ParseFloat("1.2") == Some(1.2)
  {
    assert "1.2" == "1" + "." + "2";
    assert PyNumbers.PointValue("1", "2") == 1.2 by {
      assert PyNumbers.Shift(2.0, -1) == PyNumbers.Shift(0.2, 0);
    }
    PyNumbers.ParseFloatPoint("1", "2");
  }

  lemma DollarNumeral()
    ensures Numeral("$1.2")
  {
    assert forall i :: 0 <= i < 4 ==> "$1.2"[i] in {'$', '1', '.', '2'};
  }

  /** `W.get(key, dflt)` read through `_to_number`. */
  function WeightOf(w: Dict, key: string, dflt: real): real {
    ToNumber(GetOr(w, key, Num(dflt)))
  }

  function EmployeeMin(w: Dict): real { WeightOf(w, "employee_min", 10.0) }
  function EmployeeMax(w: Dict): real { WeightOf(w, "employee_max", 200.0) }
  function EmployeeWeight(w: Dict): real { WeightOf(w, "w_employee_fit", 25.0) }
  function RevenueWeight(w: Dict): real { WeightOf(w, "w_revenue_fit", 20.0) }
  function IndustryWeight(w: Dict): real { WeightOf(w, "w_industry_match", 15.0) }
  function LocationWeight(w: Dict): real { WeightOf(w, "w_location_match", 10.0) }
  function ContactWeight(w: Dict): real { WeightOf(w, "w_contact_completeness", 20.0) }
  function GrowthWeight(w: Dict): real { WeightOf(w, "w_growth_signal", 10.0) }

  /** Every one of the six signal weights the scorer reads is non-negative. */
  predicate NonNegativeWeights(w: Dict) {
    EmployeeWeight(w) >= 0.0 && RevenueWeight(w) >= 0.0 && IndustryWeight(w) >= 0.0
    && LocationWeight(w) >= 0.0 && ContactWeight(w) >= 0.0 && GrowthWeight(w) >= 0.0
  }

  /** The sum of the six signal weights the scorer reads. */
  function WeightTotal(w: Dict): real {
    EmployeeWeight(w) + RevenueWeight(w) + IndustryWeight(w)
    + LocationWeight(w) + ContactWeight(w) + GrowthWeight(w)
  }

  /** A missing key reads as the fallback the scorer gives it. */
  lemma MissingWeightReadsDefault(w: Dict, key: string, dflt: real)
    requires key !in w
    ensures WeightOf(w, key, dflt) == dflt
  {
  }

  /** Each of the scorer's fallbacks agrees with the default table. */
  lemma DefaultWeightReads()
    ensures EmployeeWeight(DefaultWeights) == 25.0 && RevenueWeight(DefaultWeights) == 20.0
    ensures IndustryWeight(DefaultWeights) == 15.0 && LocationWeight(DefaultWeights) == 10.0
    ensures ContactWeight(DefaultWeights) == 20.0 && GrowthWeight(DefaultWeights) == 10.0
    ensures EmployeeMin(DefaultWeights) == 10.0 && EmployeeMax(DefaultWeights) == 200.0
  {
    assert DefaultWeights["w_employee_fit"] == Num(25.0);
    assert DefaultWeights["w_revenue_fit"] == Num(20.0);
    assert DefaultWeights["w_industry_match"] == Num(15.0);
    assert DefaultWeights["w_location_match"] == Num(10.0);
    assert DefaultWeights["w_contact_completeness"] == Num(20.0);
    assert DefaultWeights["w_growth_signal"] == Num(10.0);
    assert DefaultWeights["employee_min"] == Num(10.0);
    assert DefaultWeights["employee_max"] == Num(200.0);
  }

  /** The scorer reads the same six weights from the default table that it
      falls back to for missing keys, and they total 100. */
  lemma DefaultSignalWeights()
    ensures NonNegativeWeights(DefaultWeights)
    ensures WeightTotal(DefaultWeights) == 100.0
    ensures NonNegativeWeights(map[]) && WeightTotal(map[]) == 100.0
  {
    DefaultWeightReads();
  }

  /** `employee_count`, or `employees` when `employee_count` is falsy (including 0). */
  function EmployeeCount(lead: Dict): real {
    ToNumber(Or(Get(lead, "employee_count"), Get(lead, "employees")))
  }

  /** `revenue_usd`, or `revenue` when `revenue_usd` is falsy (including 0). */
  function Revenue(lead: Dict): real {
    ToNumber(Or(Get(lead, "revenue_usd"), Get(lead, "revenue")))
  }

  /** The fallback is taken on any falsy value, so a count of 0 defers to the
      other field just as a missing one does. */
  lemma FalsyFieldsFallBack(lead: Dict)
    ensures !Truthy(Get(lead, "employee_count")) ==> EmployeeCount(lead) == ToNumber(Get(lead, "employees"))
    ensures Truthy(Get(lead, "employee_count")) ==> EmployeeCount(lead) == ToNumber(lead["employee_count"])
    ensures !Truthy(Get(lead, "revenue_usd")) ==> Revenue(lead) == ToNumber(Get(lead, "revenue"))
    ensures Truthy(Get(lead, "revenue_usd")) ==> Revenue(lead) == ToNumber(lead["revenue_usd"])
  {
  }

  /** The revenue band's lower bound: the prefs' `rev_min` whenever that key is
      present (even holding None), the weights' `rev_min` otherwise. */
  function RevMin(w: Dict, p: PrefsDict): real {
    ToNumber(if p.revMin.Some? then p.revMin.value else GetOr(w, "rev_min", Num(1000000.0)))
  }

  /** The revenue band's upper bound, chosen like `RevMin`. */
  function RevMax(w: Dict, p: PrefsDict): real {
    ToNumber(if p.revMax.Some? then p.revMax.value else GetOr(w, "rev_max", Num(50000000.0)))
  }

  /** Fit of a positive quantity `x` to the band [lo, hi]: 1 inside it, `x/lo`
      below it, `hi/x` above it, clamped to [0, 1]. Both bands use it. */
  function BandFit(x: real, lo: real, hi: real): (fit: real)
    requires x > 0.0
    ensures 0.0 <= fit <= 1.0
    ensures fit == 1.0 <==> lo <= x <= hi
    ensures x < lo ==> fit == x / lo
    ensures lo <= x && 0.0 <= hi < x ==> fit == hi / x
    ensures lo <= x && hi < 0.0 ==> fit == 0.0
  {
    if lo <= x <= hi then 1.0
    else if x < lo then ClampUnit(x / lo)
    else ClampUnit(hi / x)
  }

  /** Below a band, the fit grows strictly as the quantity approaches it. */
  lemma BandFitIncreasesBelowBand(x: real, y: real, lo: real, hi: real)
    requires 0.0 < x < y <= lo <= hi
    ensures BandFit(x, lo, hi) < BandFit(y, lo, hi)
  {
    assert x / lo < y / lo;
  }

  /** Above a band, the fit never grows as the quantity moves further away. */
  lemma BandFitFallsAboveBand(x: real, y: real, lo: real, hi: real)
    requires 0.0 < lo <= hi <= x < y
    ensures BandFit(y, lo, hi) <= BandFit(x, lo, hi)
  {
    assert hi / y <= hi / x;
  }

  /** Employee band fit; 0 unless the count is positive. */
  function EmployeeFit(lead: Dict, w: Dict): (fit: real)
    ensures 0.0 <= fit <= 1.0
    ensures EmployeeCount(lead) <= 0.0 ==> fit == 0.0
    ensures fit == 1.0 <==> 0.0 < EmployeeCount(lead) && EmployeeMin(w) <= EmployeeCount(lead) <= EmployeeMax(w)
  {
    var emp := EmployeeCount(lead);
    if emp > 0.0 then BandFit(emp, EmployeeMin(w), EmployeeMax(w)) else 0.0
  }

  /** Revenue scoring happens only with a positive revenue and a band whose
      bounds are both positive and not inverted. */
  predicate RevenueScored(lead: Dict, w: Dict, p: PrefsDict) {
    var rmin := RevMin(w, p);
    var rmax := RevMax(w, p);
    Revenue(lead) > 0.0 && rmin > 0.0 && rmax > 0.0 && rmax >= rmin
  }

  /** Revenue band fit; 0 when revenue scoring is off. */
  function RevenueFit(lead: Dict, w: Dict, p: PrefsDict): (fit: real)
    ensures 0.0 <= fit <= 1.0
    ensures !RevenueScored(lead, w, p) ==> fit == 0.0
    ensures fit == 1.0 <==> RevenueScored(lead, w, p) && RevMin(w, p) <= Revenue(lead) <= RevMax(w, p)
  {
    if RevenueScored(lead, w, p) then BandFit(Revenue(lead), RevMin(w, p), RevMax(w, p)) else 0.0
  }

  /** A revenue bound present in the prefs but holding None reads as 0 and
      switches revenue scoring off, whatever the weights say. */
  lemma NullPrefBoundDisablesRevenue(lead: Dict, w: Dict, p: PrefsDict)
    requires p.revMin == Some(Null) || p.revMax == Some(Null)
    ensures !RevenueScored(lead, w, p)
    ensures RevenueFit(lead, w, p) == 0.0
  {
  }

  /** Bounds present in the prefs make the weights' bounds irrelevant; absent
      ones fall back to the weights (and then to 1e6 and 5e7). */
  lemma RevenueBoundsSource(w1: Dict, w2: Dict, p: PrefsDict)
    ensures p.revMin.Some? ==> RevMin(w1, p) == RevMin(w2, p)
    ensures p.revMax.Some? ==> RevMax(w1, p) == RevMax(w2, p)
    ensures p.revMin.None? ==> RevMin(w1, p) == WeightOf(w1, "rev_min", 1000000.0)
    ensures p.revMax.None? ==> RevMax(w1, p) == WeightOf(w1, "rev_max", 50000000.0)
  {
  }

  /** `set(map(str, P.get(key, [])))` for a list of strings. */
  function PrefSet(xs: Option<seq<string>>): (s: set<string>)
    ensures forall x :: x in s <==> xs.Some? && x in xs.value
  {
    if xs.Some? then set x | x in xs.value else {}
  }

  /** `str(lead.get(key, "")).strip()`; `None` for a numeric value, whose text
      is not modelled. */
  function LeadText(lead: Dict, key: string): (r: Option<string>)
    ensures r.None? <==> key in lead && (lead[key].Num? || lead[key].NonFinite?)
    ensures r.Some? ==> Text.Trimmed(r.value, Text.IsPySpace)
    ensures key !in lead ==> r == Some("")
  {
    match StrOf(GetOr(lead, key, Str("")))
    case Some(t) => Some(Text.Strip(t, Text.IsPySpace))
    case None => None
  }

  /** A string field without surrounding whitespace is read as it is. */
  lemma LeadTextOfTrimmed(lead: Dict, key: string, t: string)
    requires GetOr(lead, key, Str("")) == Str(t)
    requires Text.Trimmed(t, Text.IsPySpace)
    ensures LeadText(lead, key) == Some(t)
  {
  }

  /** The stripped industry is, exactly and case-sensitively, in a non-empty
      industry preference list. */
  predicate IndustryMatch(lead: Dict, p: PrefsDict)
    ensures IndustryMatch(lead, p) <==>
              LeadText(lead, "industry").Some? && p.industries.Some?
              && LeadText(lead, "industry").value in p.industries.value
  {
    var industries := PrefSet(p.industries);
    var industry := LeadText(lead, "industry");
    industries != {} && industry.Some? && industry.value in industries
  }

  /** The stripped country is in a non-empty country list, or the stripped
      state is in a non-empty state list. */
  predicate LocationMatch(lead: Dict, p: PrefsDict)
    ensures LocationMatch(lead, p) <==>
              (LeadText(lead, "country").Some? && p.countries.Some?
               && LeadText(lead, "country").value in p.countries.value)
              || (LeadText(lead, "state").Some? && p.states.Some?
                  && LeadText(lead, "state").value in p.states.value)
  {
    var countries := PrefSet(p.countries);
    var states := PrefSet(p.states);
    var country := LeadText(lead, "country");
    var state := LeadText(lead, "state");
    (countries != {} && country.Some? && country.value in countries)
    || (states != {} && state.Some? && state.value in states)
  }

  /** Once the industry text is known, the industry matches exactly when the
      list holds that text. */
  lemma IndustryMatchOfText(lead: Dict, p: PrefsDict, t: string)
    requires LeadText(lead, "industry") == Some(t)
    ensures IndustryMatch(lead, p) <==> p.industries.Some? && t in p.industries.value
  {
  }

  /** A match needs a non-empty list: with no industries listed no lead gets
      the industry weight, and with neither countries nor states listed none
      gets the location weight. */
  lemma MatchNeedsList(lead: Dict, p: PrefsDict)
    ensures IndustryMatch(lead, p) ==> p.industries.Some? && |p.industries.value| > 0
    ensures LocationMatch(lead, p) ==>
              (p.countries.Some? && |p.countries.value| > 0) || (p.states.Some? && |p.states.value| > 0)
  {
  }

  /** A country that the country list holds is a location match. */
  lemma CountryMatchOfText(lead: Dict, p: PrefsDict, t: string)
    requires LeadText(lead, "country") == Some(t)
    requires p.countries.Some? && t in p.countries.value
    ensures LocationMatch(lead, p)
  {
  }

  /** The contact channels a lead fills in with a truthy value. */
  function FilledChannels(lead: Dict): set<string> {
    set c | c in {"email", "phone", "linkedin"} && Truthy(Get(lead, c))
  }

  /** The channel `c` as a set, when the lead fills it in. */
  function Filled(lead: Dict, c: string): set<string> {
    if Truthy(Get(lead, c)) then {c} else {}
  }

  /** Each filled channel adds one to the number of filled channels. */
  lemma FilledCount(lead: Dict)
    ensures |FilledChannels(lead)| == (if Truthy(Get(lead, "email")) then 1 else 0)
                                      + (if Truthy(Get(lead, "phone")) then 1 else 0)
                                      + (if Truthy(Get(lead, "linkedin")) then 1 else 0)
  {
    FilledSplit(lead);
    var e, p, l := Filled(lead, "email"), Filled(lead, "phone"), Filled(lead, "linkedin");
    assert e !! p && (e + p) !! l;
  }

  lemma FilledSplit(lead: Dict)
    ensures FilledChannels(lead) == Filled(lead, "email") + Filled(lead, "phone") + Filled(lead, "linkedin")
  {
  }

  /** How many of email, phone and linkedin are truthy. */
  function ContactCount(lead: Dict): (k: nat)
    ensures k == |FilledChannels(lead)|
    ensures k <= 3
    ensures k == 0 <==> !Truthy(Get(lead, "email")) && !Truthy(Get(lead, "phone")) && !Truthy(Get(lead, "linkedin"))
    ensures k == 3 <==> Truthy(Get(lead, "email")) && Truthy(Get(lead, "phone")) && Truthy(Get(lead, "linkedin"))
  {
    FilledCount(lead);
    (if Truthy(Get(lead, "email")) then 1 else 0)
    + (if Truthy(Get(lead, "phone")) then 1 else 0)
    + (if Truthy(Get(lead, "linkedin")) then 1 else 0)
  }

  /** A non-zero growth rank of at most 10000, or a truthy `hiring`. A
      truthy `hiring` always fires; without it, a missing rank never does, and
      a numeric rank fires when it is not 0 and at most 10000 (so a negative
      rank fires too). */
  predicate GrowthSignal(lead: Dict)
    ensures Truthy(Get(lead, "hiring")) ==> GrowthSignal(lead)
    ensures !Truthy(Get(lead, "hiring")) && "growjo_rank" !in lead ==> !GrowthSignal(lead)
    ensures !Truthy(Get(lead, "hiring")) && "growjo_rank" in lead && lead["growjo_rank"].Num? ==>
              (GrowthSignal(lead) <==> lead["growjo_rank"].x != 0.0 && lead["growjo_rank"].x <= 10000.0)
  {
    var rank := ToNumber(Get(lead, "growjo_rank"));
    (rank != 0.0 && rank <= 10000.0) || Truthy(Get(lead, "hiring"))
  }

  /** `share * weight`: the part of a signal's weight a fractional subscore earns. */
  function Portion(share: real, weight: real): (r: real)
    ensures 0.0 <= share <= 1.0 && 0.0 <= weight ==> 0.0 <= r <= weight
    ensures share == 0.0 ==> r == 0.0
    ensures share == 1.0 ==> r == weight
  {
    assert 0.0 <= share <= 1.0 && 0.0 <= weight ==> share * weight <= 1.0 * weight;
    share * weight
  }

  /** Contribution of the employee band: fit times weight. */
  function EmployeeTerm(lead: Dict, w: Dict): (t: real)
    ensures EmployeeWeight(w) >= 0.0 ==> 0.0 <= t <= EmployeeWeight(w)
    ensures EmployeeCount(lead) <= 0.0 ==> t == 0.0
  {
    Portion(EmployeeFit(lead, w), EmployeeWeight(w))
  }

  /** Contribution of the revenue band: fit times weight, 0 when revenue scoring is off. */
  function RevenueTerm(lead: Dict, w: Dict, p: PrefsDict): (t: real)
    ensures RevenueWeight(w) >= 0.0 ==> 0.0 <= t <= RevenueWeight(w)
    ensures !RevenueScored(lead, w, p) ==> t == 0.0
  {
    Portion(RevenueFit(lead, w, p), RevenueWeight(w))
  }

  /** Contribution of contact completeness: k/3 of the weight. */
  function ContactTerm(lead: Dict, w: Dict): (t: real)
    ensures ContactWeight(w) >= 0.0 ==> 0.0 <= t <= ContactWeight(w)
    ensures ContactCount(lead) == 0 ==> t == 0.0
    ensures ContactCount(lead) == 3 ==> t == ContactWeight(w)
  {
    Portion(ContactCount(lead) as real / 3.0, ContactWeight(w))
  }

  /** The uncapped score: the six signal contributions added up in the
      scorer's order; the all-or-nothing signals add their full weight or nothing. */
  function RawScore(lead: Dict, w: Dict, p: PrefsDict): (raw: real)
    ensures (EmployeeFit(lead, w) == 0.0 && RevenueFit(lead, w, p) == 0.0 && !IndustryMatch(lead, p)
             && !LocationMatch(lead, p) && ContactCount(lead) == 0 && !GrowthSignal(lead)) ==> raw == 0.0
    ensures (EmployeeFit(lead, w) == 1.0 && RevenueFit(lead, w, p) == 1.0 && IndustryMatch(lead, p)
             && LocationMatch(lead, p) && ContactCount(lead) == 3 && GrowthSignal(lead)) ==> raw == WeightTotal(w)
  {
    EmployeeTerm(lead, w)
    + RevenueTerm(lead, w, p)
    + (if IndustryMatch(lead, p) then IndustryWeight(w) else 0.0)
    + (if LocationMatch(lead, p) then LocationWeight(w) else 0.0)
    + ContactTerm(lead, w)
    + (if GrowthSignal(lead) then GrowthWeight(w) else 0.0)
  }

  /** With non-negative weights the raw score lies between 0 and the sum of the
      six weights: each signal adds at most its own weight. */
  lemma RawScoreBounds(lead: Dict, w: Dict, p: PrefsDict)
    requires NonNegativeWeights(w)
    ensures 0.0 <= RawScore(lead, w, p) <= WeightTotal(w)
  {
    var industry := if IndustryMatch(lead, p) then IndustryWeight(w) else 0.0;
    var location := if LocationMatch(lead, p) then LocationWeight(w) else 0.0;
    var growth := if GrowthSignal(lead) then GrowthWeight(w) else 0.0;
    assert RawScore(lead, w, p)
           == EmployeeTerm(lead, w) + RevenueTerm(lead, w, p) + industry + location + ContactTerm(lead, w) + growth;
  }

  /** The `prefs` argument: nothing, a plain dictionary, or an `ICPPrefs`. */
  datatype PrefsArg = NoPrefs | DictPrefs(d: PrefsDict) | IcpPrefs(icp: ICPPrefs)

  /** An `ICPPrefs` goes through `to_dict()`; a missing value becomes `{}`. */
  function Normalize(prefs: PrefsArg): (p: PrefsDict)
    ensures prefs.NoPrefs? ==> p.industries.None? && p.countries.None? && p.states.None?
                               && p.revMin.None? && p.revMax.None?
    ensures prefs.DictPrefs? ==> p == prefs.d
    ensures prefs.IcpPrefs? ==> p.industries == Some(prefs.icp.industries) && p.countries == Some(prefs.icp.countries)
                                && p.states == Some(prefs.icp.states) && p.revMin.Some? && p.revMax.Some?
  {
    match prefs
    case NoPrefs => EmptyPrefs
    case DictPrefs(d) => d
    case IcpPrefs(icp) => ToDict(icp)
  }

  /** `score_lead`: the raw score, capped at 100, rounded half to even. The
      result is at most 100, the integer nearest the raw score when that is at
      most 100, and not negative when no weight is. */
  function ScoreLead(lead: Dict, w: Dict, prefs: PrefsArg): (score: int)
    ensures score <= 100
    ensures RawScore(lead, w, Normalize(prefs)) >= 100.0 ==> score == 100
    ensures RawScore(lead, w, Normalize(prefs)) <= 100.0 ==>
              RawScore(lead, w, Normalize(prefs)) - 0.5 <= score as real <= RawScore(lead, w, Normalize(prefs)) + 0.5
    ensures NonNegativeWeights(w) ==> score >= 0
  {
    var raw := RawScore(lead, w, Normalize(prefs));
    assert NonNegativeWeights(w) ==> raw >= 0.0 by {
      if NonNegativeWeights(w) {
        RawScoreBounds(lead, w, Normalize(prefs));
      }
    }
    PyNumbers.RoundHalfEven(if raw <= 100.0 then raw else 100.0)
  }

  /** A raw score of at most 100 is rounded half to even and nothing else. */
  lemma ScoreOfRaw(lead: Dict, w: Dict, prefs: PrefsArg, raw: real)
    requires RawScore(lead, w, Normalize(prefs)) == raw <= 100.0
    ensures ScoreLead(lead, w, prefs) == PyNumbers.RoundHalfEven(raw)
  {
  }

  /** When no weight is negative and the weights total at most 100, the cap
      never binds: the score is the rounded raw score, between 0 and 100. */
  lemma ScoreIsRoundedRaw(lead: Dict, w: Dict, prefs: PrefsArg)
    requires NonNegativeWeights(w) && WeightTotal(w) <= 100.0
    ensures 0.0 <= RawScore(lead, w, Normalize(prefs)) <= 100.0
    ensures ScoreLead(lead, w, prefs) == PyNumbers.RoundHalfEven(RawScore(lead, w, Normalize(prefs)))
    ensures 0 <= ScoreLead(lead, w, prefs) <= 100
  {
    RawScoreBounds(lead, w, Normalize(prefs));
    ScoreOfRaw(lead, w, prefs, RawScore(lead, w, Normalize(prefs)));
  }

  /** In particular under the default weights, and under an empty weights
      table, which reads the same defaults. */
  lemma DefaultScoreIsRoundedRaw(lead: Dict, prefs: PrefsArg)
    ensures 0.0 <= RawScore(lead, DefaultWeights, Normalize(prefs)) <= 100.0
    ensures ScoreLead(lead, DefaultWeights, prefs) == PyNumbers.RoundHalfEven(RawScore(lead, DefaultWeights, Normalize(prefs)))
    ensures 0 <= ScoreLead(lead, DefaultWeights, prefs) <= 100
    ensures 0 <= ScoreLead(lead, map[], prefs) <= 100
  {
    DefaultSignalWeights();
    ScoreIsRoundedRaw(lead, DefaultWeights, prefs);
    ScoreIsRoundedRaw(lead, map[], prefs);
  }

  /** A lead with no fields at all scores 0 under any weights when no
      preference list contains the empty string. */
  lemma EmptyLeadScoresZero(w: Dict, prefs: PrefsArg)
    requires "" !in PrefSet(Normalize(prefs).industries)
    requires "" !in PrefSet(Normalize(prefs).countries)
    requires "" !in PrefSet(Normalize(prefs).states)
    ensures ScoreLead(map[], w, prefs) == 0
  {
    EmptyLeadRawZero(w, Normalize(prefs));
  }

  lemma EmptyLeadRawZero(w: Dict, p: PrefsDict)
    requires "" !in PrefSet(p.industries) && "" !in PrefSet(p.countries) && "" !in PrefSet(p.states)
    ensures RawScore(map[], w, p) == 0.0
  {
    EmptyLeadNoMatch(p);
    assert ContactCount(map[]) == 0;
    assert !GrowthSignal(map[]);
  }

  /** Every text field of the empty lead reads as "", which no list holds. */
  lemma EmptyLeadNoMatch(p: PrefsDict)
    requires "" !in PrefSet(p.industries) && "" !in PrefSet(p.countries) && "" !in PrefSet(p.states)
    ensures !IndustryMatch(map[], p) && !LocationMatch(map[], p)
  {
    assert LeadText(map[], "industry") == Some("");
    assert LeadText(map[], "country") == Some("");
    assert LeadText(map[], "state") == Some("");
  }

  /** A scored lead: the input record with `score` and `priority` attached. */
  datatype Labelled = Labelled(lead: Dict, score: int, priority: Priority) {
    /** The output dictionary: a copy of the input plus the two new keys; the
        input's other keys keep their values. */
    function AsDict(): (d: Dict)
      ensures d.Keys == lead.Keys + {"score", "priority"}
      ensures d["score"] == Num(score as real) && d["priority"] == Str(priority.Name())
      ensures forall k :: k in lead && k != "score" && k != "priority" ==> d[k] == lead[k]
    {
      lead["score" := Num(score as real)]["priority" := Str(priority.Name())]
    }
  }

  /** `weights or load_weights()`: `loaded` is what `load_weights()` returns,
      used when no weights or an empty dictionary is given. */
  function EffectiveWeights(weights: Option<Dict>, loaded: Dict): (w: Dict)
    ensures weights.Some? && |weights.value| > 0 ==> w == weights.value
    ensures weights.None? || |weights.value| == 0 ==> w == loaded
  {
    if weights.None? || |weights.value| == 0 then loaded else weights.value
  }

  /** Each lead with its score under `score` and the tier of that score, in
      input order. */
  function LabelWith(leads: seq<Dict>, score: Dict -> int, hot: int, warm: int): (r: seq<Labelled>)
    ensures |r| == |leads|
    ensures forall i :: 0 <= i < |leads| ==>
              r[i].lead == leads[i] && r[i].score == score(leads[i]) && r[i].priority == Tier(r[i].score, hot, warm)
  {
    seq(|leads|, i requires 0 <= i < |leads| => Labelled(leads[i], score(leads[i]), Tier(score(leads[i]), hot, warm)))
  }

  /** `score_and_label_leads`: one output per input lead in the same order,
      each the lead itself with its score and the tier of that score. `None`
      is the exception `priority_label` raises on an unreadable threshold,
      which can only happen when there is at least one lead. */
  function ScoreAndLabelLeads(leads: seq<Dict>, weights: Option<Dict>, loaded: Dict, prefs: PrefsArg)
    : (r: Option<seq<Labelled>>)
    ensures r.None? <==> |leads| > 0 && PriorityLabel(0, EffectiveWeights(weights, loaded)).None?
    ensures r.Some? ==> |r.value| == |leads|
    ensures r.Some? ==> forall i :: 0 <= i < |leads| ==>
              && r.value[i].lead == leads[i]
              && r.value[i].score == ScoreLead(leads[i], EffectiveWeights(weights, loaded), prefs)
              && PriorityLabel(r.value[i].score, EffectiveWeights(weights, loaded)) == Some(r.value[i].priority)
  {
    var w := EffectiveWeights(weights, loaded);
    if |leads| == 0 then Some([])
    else
      match (HotThreshold(w), WarmThreshold(w))
      case (Some(hot), Some(warm)) =>
        Some(LabelWith(leads, l => ScoreLead(l, w, prefs), hot, warm))
      case _ => None
  }
}
