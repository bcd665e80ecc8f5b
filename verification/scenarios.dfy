/** The backend test suite's leads, scored by the model: the hot lead and the
    cold lead of the scoring tests, and the two leads of the API test run
    through the whole request pipeline. */
module Scenarios {
  import opened Options
  import opened PyValues
  import opened ScoringConfig
  import opened Scoring
  import Routes
  import Text
  import PyNumbers
  import StableSort

  /** The well-fitting lead of the scoring tests. */
  const HotLead: Dict := map[
    "employee_count" := Num(120.0), "revenue_usd" := Num(5000000.0),
    "industry" := Str("Manufacturing"), "country" := Str("US"), "state" := Str("CA"),
    "email" := Str("hi@acme.com"), "phone" := Str("555"), "linkedin" := Str("ln"),
    "growjo_rank" := Num(9000.0), "hiring" := Bool(true)]

  /** The poorly-fitting lead of the scoring tests. */
  const ColdLead: Dict := map[
    "employee_count" := Num(5.0), "revenue_usd" := Num(200000.0),
    "industry" := Str("Other"), "country" := Str("US"), "state" := Str("UT"),
    "email" := Null, "phone" := Null, "linkedin" := Null,
    "growjo_rank" := Null, "hiring" := Bool(false)]

  /** `ICPPrefs(industries=["Manufacturing"], countries=["US"])`: no revenue
      bounds, which `to_dict` turns into present None values. */
  const TestIcp := IcpPrefs(ICPPrefs(["Manufacturing"], ["US"], [], None, None))

  /** The API test's prefs: the same lists plus explicit revenue bounds. */
  const ApiPrefs := DictPrefs(PrefsDict(Some(["Manufacturing"]), Some(["US"]), None,
                                        Some(Num(1000000.0)), Some(Num(50000000.0))))

  /** The three texts of the test data have no surrounding whitespace. */
  lemma TestTextsTrimmed()
    ensures Text.Trimmed("Manufacturing", Text.IsPySpace)
    ensures Text.Trimmed("Other", Text.IsPySpace)
    ensures Text.Trimmed("US", Text.IsPySpace)
  {
    assert "Manufacturing"[0] == 'M' && "Manufacturing"[12] == 'g';
    assert "Other"[0] == 'O' && "Other"[4] == 'r';
    assert "US"[0] == 'U' && "US"[1] == 'S';
  }

  /** A lead whose industry and country are the only entries of the two
      preference lists matches both. */
  lemma ListedLeadMatches(lead: Dict, p: PrefsDict, industry: string, country: string)
    requires GetOr(lead, "industry", Str("")) == Str(industry) && Text.Trimmed(industry, Text.IsPySpace)
    requires GetOr(lead, "country", Str("")) == Str(country) && Text.Trimmed(country, Text.IsPySpace)
    requires p.industries == Some([industry]) && p.countries == Some([country])
    ensures IndustryMatch(lead, p) && LocationMatch(lead, p)
  {
    LeadTextOfTrimmed(lead, "industry", industry);
    IndustryMatchOfText(lead, p, industry);
    LeadTextOfTrimmed(lead, "country", country);
    CountryMatchOfText(lead, p, country);
  }

  /** A lead whose country is listed but whose industry differs from the one
      listed industry matches the location only. */
  lemma UnlistedIndustryMatches(lead: Dict, p: PrefsDict, industry: string, listed: string, country: string)
    requires GetOr(lead, "industry", Str("")) == Str(industry) && Text.Trimmed(industry, Text.IsPySpace)
    requires GetOr(lead, "country", Str("")) == Str(country) && Text.Trimmed(country, Text.IsPySpace)
    requires p.industries == Some([listed]) && industry != listed && p.countries == Some([country])
    ensures !IndustryMatch(lead, p) && LocationMatch(lead, p)
  {
    assert !IndustryMatch(lead, p) by {
      LeadTextOfTrimmed(lead, "industry", industry);
      IndustryMatchOfText(lead, p, industry);
    }
    assert LocationMatch(lead, p) by {
      LeadTextOfTrimmed(lead, "country", country);
      CountryMatchOfText(lead, p, country);
    }
  }

  /** The score from the six contributions, once each is known. */
  lemma ScoreFromParts(lead: Dict, w: Dict, prefs: PrefsArg, employees: real, revenue: real, contacts: real,
                       industry: bool, location: bool, growth: bool, raw: real)
    requires EmployeeTerm(lead, w) == employees && RevenueTerm(lead, w, Normalize(prefs)) == revenue
    requires ContactTerm(lead, w) == contacts
    requires IndustryMatch(lead, Normalize(prefs)) == industry && LocationMatch(lead, Normalize(prefs)) == location
    requires GrowthSignal(lead) == growth
    requires raw == employees + revenue + (if industry then IndustryWeight(w) else 0.0)
                    + (if location then LocationWeight(w) else 0.0) + contacts
                    + (if growth then GrowthWeight(w) else 0.0)
    requires raw <= 100.0
    ensures ScoreLead(lead, w, prefs) == PyNumbers.RoundHalfEven(raw)
  {
    ScoreOfRaw(lead, w, prefs, raw);
  }

  /** The raw scores of the test data round as Python rounds them: whole
      numbers to themselves, ties to the even neighbour. */
  lemma TestRawScoresRound()
    ensures PyNumbers.RoundHalfEven(0.0) == 0
    ensures PyNumbers.RoundHalfEven(80.0) == 80
    ensures PyNumbers.RoundHalfEven(100.0) == 100
    ensures PyNumbers.RoundHalfEven(22.5) == 22
    ensures PyNumbers.RoundHalfEven(26.5) == 26
  {
  }

  // The hot lead of the scoring tests.

  lemma HotLeadEmployees(lead: Dict, w: Dict)
    requires lead == HotLead && w == DefaultWeights
    ensures EmployeeTerm(lead, w) == 25.0
  {
    assert Get(lead, "employee_count") == Num(120.0);
    assert EmployeeCount(lead) == 120.0;
    DefaultWeightReads();
  }

  lemma HotLeadRevenue(lead: Dict, w: Dict, p: PrefsDict)
    requires lead == HotLead && w == DefaultWeights && p == Normalize(TestIcp)
    ensures RevenueTerm(lead, w, p) == 0.0
  {
    NullPrefBoundDisablesRevenue(lead, w, p);
  }

  lemma HotLeadText(lead: Dict)
    requires lead == HotLead
    ensures GetOr(lead, "industry", Str("")) == Str("Manufacturing") && GetOr(lead, "country", Str("")) == Str("US")
  {
  }

  lemma HotLeadContacts(lead: Dict, w: Dict)
    requires lead == HotLead && w == DefaultWeights
    ensures ContactTerm(lead, w) == 20.0
  {
    assert Get(lead, "email") == Str("hi@acme.com");
    assert Get(lead, "phone") == Str("555");
    assert Get(lead, "linkedin") == Str("ln");
    assert ContactCount(lead) == 3;
    DefaultWeightReads();
  }

  lemma HotLeadGrowth(lead: Dict)
    requires lead == HotLead
    ensures GrowthSignal(lead)
  {
    assert Get(lead, "growjo_rank") == Num(9000.0);
  }

  /** With the test's `ICPPrefs` the revenue band is switched off, and the hot
      lead scores 25 + 15 + 10 + 20 + 10 = 80. */
  lemma HotLeadScore(lead: Dict, w: Dict, prefs: PrefsArg)
    requires lead == HotLead && w == DefaultWeights && prefs == TestIcp
    ensures ScoreLead(lead, w, prefs) == 80
  {
    var p := Normalize(prefs);
    HotLeadEmployees(lead, w);
    HotLeadRevenue(lead, w, p);
    HotLeadContacts(lead, w);
    HotLeadText(lead);
    TestTextsTrimmed();
    ListedLeadMatches(lead, p, "Manufacturing", "US");
    HotLeadGrowth(lead);
    DefaultWeightReads();
    ScoreFromParts(lead, w, prefs, 25.0, 0.0, 20.0, true, true, true, 80.0);
    TestRawScoresRound();
  }

  // The cold lead of the scoring tests.

  lemma ColdLeadEmployees(lead: Dict, w: Dict)
    requires lead == ColdLead && w == DefaultWeights
    ensures EmployeeTerm(lead, w) == 12.5
  {
    assert Get(lead, "employee_count") == Num(5.0);
    assert EmployeeCount(lead) == 5.0;
    DefaultWeightReads();
    assert EmployeeFit(lead, w) == 0.5;
  }

  lemma ColdLeadText(lead: Dict)
    requires lead == ColdLead
    ensures GetOr(lead, "industry", Str("")) == Str("Other") && GetOr(lead, "country", Str("")) == Str("US")
  {
  }

  lemma ColdLeadContacts(lead: Dict, w: Dict)
    requires lead == ColdLead && w == DefaultWeights
    ensures ContactTerm(lead, w) == 0.0
  {
    assert Get(lead, "email") == Null;
    assert Get(lead, "phone") == Null;
    assert Get(lead, "linkedin") == Null;
    assert ContactCount(lead) == 0;
  }

  lemma ColdLeadGrowth(lead: Dict)
    requires lead == ColdLead
    ensures !GrowthSignal(lead)
  {
    assert Get(lead, "growjo_rank") == Null;
    assert Get(lead, "hiring") == Bool(false);
  }

  /** The cold lead gets half the employee weight and the location weight:
      12.5 + 10 = 22.5, which rounds half to even to 22. */
  lemma ColdLeadScore(lead: Dict, w: Dict, prefs: PrefsArg)
    requires lead == ColdLead && w == DefaultWeights && prefs == TestIcp
    ensures ScoreLead(lead, w, prefs) == 22
  {
    var p := Normalize(prefs);
    ColdLeadEmployees(lead, w);
    NullPrefBoundDisablesRevenue(lead, w, p);
    ColdLeadContacts(lead, w);
    ColdLeadText(lead);
    TestTextsTrimmed();
    assert "Other" != "Manufacturing" by {
      assert |"Other"| != |"Manufacturing"|;
    }
    UnlistedIndustryMatches(lead, p, "Other", "Manufacturing", "US");
    ColdLeadGrowth(lead);
    DefaultWeightReads();
    ScoreFromParts(lead, w, prefs, 12.5, 0.0, 0.0, false, true, false, 22.5);
    TestRawScoresRound();
  }

  /** The scoring tests' labels: 80 is Hot and 22 is Cold under the default
      thresholds. */
  lemma TestLeadLabels()
    ensures PriorityLabel(80, DefaultWeights) == Some(Hot)
    ensures PriorityLabel(22, DefaultWeights) == Some(Cold)
  {
    DefaultThresholds(map[]);
  }

  /** The scoring test's lead with only a name. */
  const NameOnlyLead: Dict := map["name" := Str("UnknownCo")]

  lemma NameOnlyEmployees(lead: Dict, w: Dict)
    requires lead == NameOnlyLead
    ensures EmployeeTerm(lead, w) == 0.0
  {
    assert EmployeeCount(lead) == 0.0;
  }

  lemma NameOnlyRevenue(lead: Dict, w: Dict, p: PrefsDict)
    requires lead == NameOnlyLead
    ensures RevenueTerm(lead, w, p) == 0.0
  {
    assert Revenue(lead) == 0.0;
  }

  lemma NameOnlyContacts(lead: Dict, w: Dict)
    requires lead == NameOnlyLead
    ensures ContactTerm(lead, w) == 0.0
  {
    assert ContactCount(lead) == 0;
  }

  lemma NameOnlyGrowth(lead: Dict)
    requires lead == NameOnlyLead
    ensures !GrowthSignal(lead)
  {
  }

  /** With no prefs nothing matches. */
  lemma NoPrefsNoMatch(lead: Dict, prefs: PrefsArg)
    requires prefs == NoPrefs
    ensures !IndustryMatch(lead, Normalize(prefs)) && !LocationMatch(lead, Normalize(prefs))
  {
    MatchNeedsList(lead, Normalize(prefs));
  }

  /** A lead with only a name scores 0, whatever the weights. */
  lemma NameOnlyLeadScore(lead: Dict, w: Dict, prefs: PrefsArg)
    requires lead == NameOnlyLead && prefs == NoPrefs
    ensures ScoreLead(lead, w, prefs) == 0
  {
    NameOnlyEmployees(lead, w);
    NameOnlyRevenue(lead, w, Normalize(prefs));
    NameOnlyContacts(lead, w);
    NameOnlyGrowth(lead);
    NoPrefsNoMatch(lead, prefs);
    ScoreFromParts(lead, w, prefs, 0.0, 0.0, 0.0, false, false, false, 0.0);
    TestRawScoresRound();
  }

  /** The API test's first lead. */
  const AcmeLead: Dict := map[
    "id" := Str("a1"), "name" := Str("Acme Robotics"), "industry" := Str("Manufacturing"),
    "country" := Str("US"), "state" := Str("CA"),
    "employee_count" := Num(120.0), "revenue_usd" := Num(5000000.0),
    "email" := Str("hello@acme.com"), "phone" := Str("555-1234"), "linkedin" := Str("ln"),
    "growjo_rank" := Num(9000.0), "hiring" := Bool(true)]

  /** The API test's second lead. */
  const TinyLead: Dict := map[
    "id" := Str("b1"), "name" := Str("Tiny Co"), "industry" := Str("Other"),
    "country" := Str("US"), "state" := Str("UT"),
    "employee_count" := Num(5.0), "revenue_usd" := Num(200000.0),
    "email" := Null, "phone" := Null, "linkedin" := Null,
    "growjo_rank" := Null, "hiring" := Bool(false)]

  /** The revenue bounds of the API test's prefs. */
  lemma ApiBounds(w: Dict)
    ensures RevMin(w, Normalize(ApiPrefs)) == 1000000.0
    ensures RevMax(w, Normalize(ApiPrefs)) == 50000000.0
  {
  }

  lemma AcmeEmployees(lead: Dict, w: Dict)
    requires lead == AcmeLead && w == DefaultWeights
    ensures EmployeeTerm(lead, w) == 25.0
  {
    assert Get(lead, "employee_count") == Num(120.0);
    assert EmployeeCount(lead) == 120.0;
    DefaultWeightReads();
  }

  lemma AcmeRevenue(lead: Dict, w: Dict, p: PrefsDict)
    requires lead == AcmeLead && w == DefaultWeights && p == Normalize(ApiPrefs)
    ensures RevenueTerm(lead, w, p) == 20.0
  {
    assert Get(lead, "revenue_usd") == Num(5000000.0);
    assert Revenue(lead) == 5000000.0;
    ApiBounds(w);
    assert RevenueFit(lead, w, p) == 1.0;
    DefaultWeightReads();
  }

  lemma AcmeText(lead: Dict)
    requires lead == AcmeLead
    ensures GetOr(lead, "industry", Str("")) == Str("Manufacturing") && GetOr(lead, "country", Str("")) == Str("US")
  {
  }

  lemma AcmeContacts(lead: Dict, w: Dict)
    requires lead == AcmeLead && w == DefaultWeights
    ensures ContactTerm(lead, w) == 20.0
  {
    assert Get(lead, "email") == Str("hello@acme.com");
    assert Get(lead, "phone") == Str("555-1234");
    assert Get(lead, "linkedin") == Str("ln");
    assert ContactCount(lead) == 3;
    DefaultWeightReads();
  }

  lemma AcmeGrowth(lead: Dict)
    requires lead == AcmeLead
    ensures GrowthSignal(lead)
  {
    assert Get(lead, "growjo_rank") == Num(9000.0);
  }

  /** Acme Robotics fits every signal: 25 + 20 + 15 + 10 + 20 + 10 = 100. */
  lemma AcmeScore(lead: Dict, w: Dict, prefs: PrefsArg)
    requires lead == AcmeLead && w == DefaultWeights && prefs == ApiPrefs
    ensures ScoreLead(lead, w, prefs) == 100
  {
    var p := Normalize(prefs);
    AcmeEmployees(lead, w);
    AcmeRevenue(lead, w, p);
    AcmeContacts(lead, w);
    AcmeText(lead);
    TestTextsTrimmed();
    ListedLeadMatches(lead, p, "Manufacturing", "US");
    AcmeGrowth(lead);
    DefaultWeightReads();
    ScoreFromParts(lead, w, prefs, 25.0, 20.0, 20.0, true, true, true, 100.0);
    TestRawScoresRound();
  }

  lemma TinyEmployees(lead: Dict, w: Dict)
    requires lead == TinyLead && w == DefaultWeights
    ensures EmployeeTerm(lead, w) == 12.5
  {
    assert Get(lead, "employee_count") == Num(5.0);
    assert EmployeeCount(lead) == 5.0;
    DefaultWeightReads();
    assert EmployeeFit(lead, w) == 0.5;
  }

  lemma TinyRevenue(lead: Dict, w: Dict, p: PrefsDict)
    requires lead == TinyLead && w == DefaultWeights && p == Normalize(ApiPrefs)
    ensures RevenueTerm(lead, w, p) == 4.0
  {
    assert Get(lead, "revenue_usd") == Num(200000.0);
    assert Revenue(lead) == 200000.0;
    ApiBounds(w);
    assert RevenueFit(lead, w, p) == 0.2;
    DefaultWeightReads();
  }

  lemma TinyText(lead: Dict)
    requires lead == TinyLead
    ensures GetOr(lead, "industry", Str("")) == Str("Other") && GetOr(lead, "country", Str("")) == Str("US")
  {
  }

  lemma TinyContacts(lead: Dict, w: Dict)
    requires lead == TinyLead && w == DefaultWeights
    ensures ContactTerm(lead, w) == 0.0
  {
    assert Get(lead, "email") == Null;
    assert Get(lead, "phone") == Null;
    assert Get(lead, "linkedin") == Null;
    assert ContactCount(lead) == 0;
  }

  lemma TinyGrowth(lead: Dict)
    requires lead == TinyLead
    ensures !GrowthSignal(lead)
  {
    assert Get(lead, "growjo_rank") == Null;
    assert Get(lead, "hiring") == Bool(false);
  }

  /** Tiny Co: 12.5 for its size, 4 for a fifth of the revenue band's lower
      bound, 10 for the location; 26.5 rounds half to even to 26. */
  lemma TinyScore(lead: Dict, w: Dict, prefs: PrefsArg)
    requires lead == TinyLead && w == DefaultWeights && prefs == ApiPrefs
    ensures ScoreLead(lead, w, prefs) == 26
  {
    var p := Normalize(prefs);
    TinyEmployees(lead, w);
    TinyRevenue(lead, w, p);
    TinyContacts(lead, w);
    TinyText(lead);
    TestTextsTrimmed();
    assert "Other" != "Manufacturing" by {
      assert |"Other"| != |"Manufacturing"|;
    }
    UnlistedIndustryMatches(lead, p, "Other", "Manufacturing", "US");
    TinyGrowth(lead);
    DefaultWeightReads();
    ScoreFromParts(lead, w, prefs, 12.5, 4.0, 0.0, false, true, false, 26.5);
    TestRawScoresRound();
  }

  /** One labelled element of the endpoint's list, given its score and the
      label that score earns. */
  lemma LabelledAt(leads: seq<Dict>, w: Dict, prefs: PrefsArg, i: nat, s: int, pr: Priority)
    requires i < |leads| && ScoreLead(leads[i], w, prefs) == s
    requires PriorityLabel(0, w).Some? && PriorityLabel(s, w) == Some(pr)
    ensures var r := ScoreAndLabelLeads(leads, Some(w), w, prefs);
            r.Some? && |r.value| == |leads| && r.value[i] == Labelled(leads[i], s, pr)
  {
    assert EffectiveWeights(Some(w), w) == w;
  }

  /** Two leads scored 100 and 26 under the default thresholds are labelled
      Hot and Cold, in their input order. */
  lemma LabelPair(a: Dict, t: Dict, w: Dict, prefs: PrefsArg)
    requires ScoreLead(a, w, prefs) == 100 && ScoreLead(t, w, prefs) == 26
    requires HotThreshold(w) == Some(70) && WarmThreshold(w) == Some(40)
    ensures var r := ScoreAndLabelLeads([a, t], Some(w), w, prefs);
            && r.Some? && |r.value| == 2
            && r.value[0] == Labelled(a, 100, Hot) && r.value[1] == Labelled(t, 26, Cold)
  {
    assert PriorityLabel(0, w).Some?;
    assert PriorityLabel(100, w) == Some(Hot) && PriorityLabel(26, w) == Some(Cold);
    LabelledAt([a, t], w, prefs, 0, 100, Hot);
    LabelledAt([a, t], w, prefs, 1, 26, Cold);
  }

  /** With threshold 70 and `score_desc`, a list of one lead at or above 70
      and one below it answers with the first alone. */
  lemma RefineKeepsTop(xs: seq<Labelled>)
    requires |xs| == 2 && xs[0].score >= 70 > xs[1].score
    ensures Routes.Refine(xs, 70, Some("score_desc")) == [xs[0]]
  {
    KeepsFirstOfTwo(xs, 70);
    StableSort.SortDescOfSorted([xs[0]], Routes.ScoreKey);
  }

  /** Filtering two leads at a threshold between their scores keeps the first. */
  lemma KeepsFirstOfTwo(xs: seq<Labelled>, m: int)
    requires m > 0 && |xs| == 2 && xs[0].score >= m > xs[1].score
    ensures Routes.ApplyMinScore(xs, m) == [xs[0]]
  {
    assert Routes.ScoreKey(xs[0]) >= m > Routes.ScoreKey(xs[1]);
    assert xs[1..][1..] == [];
    assert Routes.AtLeast(xs[1..], Routes.ScoreKey, m) == [];
    assert Routes.AtLeast(xs, Routes.ScoreKey, m) == [xs[0]] + [];
  }

  /** The API test's two leads score 100 (Hot) and 26 (Cold). */
  lemma ApiScored(leads: seq<Dict>, prefs: PrefsArg, w: Dict)
    requires leads == [AcmeLead, TinyLead] && prefs == ApiPrefs && w == DefaultWeights
    ensures var r := ScoreAndLabelLeads(leads, Some(w), w, prefs);
            && r.Some? && |r.value| == 2
            && r.value[0] == Labelled(AcmeLead, 100, Hot) && r.value[1] == Labelled(TinyLead, 26, Cold)
  {
    AcmeScore(AcmeLead, w, prefs);
    TinyScore(TinyLead, w, prefs);
    DefaultThresholds(map[]);
    LabelPair(AcmeLead, TinyLead, w, prefs);
  }

  /** The API test's request, `sort=score_desc&min_score=70` with its prefs and
      the default weights, answers with Acme Robotics alone, labelled Hot. */
  lemma ApiTestResponse(leads: seq<Dict>, prefs: PrefsArg, w: Dict)
    requires leads == [AcmeLead, TinyLead] && prefs == ApiPrefs && w == DefaultWeights
    ensures Routes.GetLeads(leads, prefs, w, Some("70"), Some("score_desc"))
            == Some([Labelled(AcmeLead, 100, Hot)])
  {
    ApiScored(leads, prefs, w);
    TopOfTwo(leads, prefs, w, ScoreAndLabelLeads(leads, Some(w), w, prefs).value);
  }

  /** The query parameter `min_score=70` reads as 70. */
  lemma MinScoreSeventy()
    ensures Routes.MinScoreParam(Some("70")) == 70
  {
    PyNumbers.ParseIntDigits("70");
  }

  /** When two scored leads lie on either side of 70, the request with
      `min_score=70` and `sort=score_desc` answers with the first alone. */
  lemma TopOfTwo(leads: seq<Dict>, prefs: PrefsArg, w: Dict, xs: seq<Labelled>)
    requires ScoreAndLabelLeads(leads, Some(w), w, prefs) == Some(xs)
    requires |xs| == 2 && xs[0].score >= 70 > xs[1].score
    ensures Routes.GetLeads(leads, prefs, w, Some("70"), Some("score_desc")) == Some([xs[0]])
  {
    MinScoreSeventy();
    RefineKeepsTop(xs);
  }
}
