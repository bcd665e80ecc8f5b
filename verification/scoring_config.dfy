/** Scoring configuration: the default weight table, the buyer's ICP
    preferences and their dictionary form, merging overrides onto defaults,
    the precedence between configuration sources, and the Hot/Warm/Cold tiers. */
module ScoringConfig {
  import opened Options
  import opened PyValues

  /** The process-wide default weights: fit bands, six signal weights and two
      priority thresholds. */
  const DefaultWeights: Dict := map[
    "employee_min" := Num(10.0),
    "employee_max" := Num(200.0),
    "rev_min" := Num(1000000.0),
    "rev_max" := Num(50000000.0),
    "w_employee_fit" := Num(25.0),
    "w_revenue_fit" := Num(20.0),
    "w_industry_match" := Num(15.0),
    "w_location_match" := Num(10.0),
    "w_contact_completeness" := Num(20.0),
    "w_growth_signal" := Num(10.0),
    "hot_threshold" := Num(70.0),
    "warm_threshold" := Num(40.0)
  ]

  /** The six signal weights of the default table add up to exactly 100, the
      default thresholds are ordered and the default bands are not inverted. */
  lemma DefaultWeightsConsistent()
    ensures DefaultWeights["w_employee_fit"].x + DefaultWeights["w_revenue_fit"].x
            + DefaultWeights["w_industry_match"].x + DefaultWeights["w_location_match"].x
            + DefaultWeights["w_contact_completeness"].x + DefaultWeights["w_growth_signal"].x == 100.0
    ensures DefaultWeights["hot_threshold"].x >= DefaultWeights["warm_threshold"].x
    ensures DefaultWeights["employee_min"].x <= DefaultWeights["employee_max"].x
    ensures DefaultWeights["rev_min"].x <= DefaultWeights["rev_max"].x
  {
  }

  /** The buyer's Ideal Customer Profile, as the backend's dataclass holds it. */
  datatype ICPPrefs = ICPPrefs(
    industries: seq<string>,
    countries: seq<string>,
    states: seq<string>,
    revMin: Option<int>,
    revMax: Option<int>)

  /** Preferences in dictionary form, as the scorer reads them. For each key,
      `None` is an absent key; for the revenue bounds `Some(Null)` is a key that
      is present with the value None, which is not the same thing. */
  datatype PrefsDict = PrefsDict(
    industries: Option<seq<string>>,
    countries: Option<seq<string>>,
    states: Option<seq<string>>,
    revMin: Option<Value>,
    revMax: Option<Value>)

  /** The empty dictionary. */
  const EmptyPrefs := PrefsDict(None, None, None, None, None)

  /** `ICPPrefs.to_dict()`: every field becomes a key, so an unset revenue bound
      is a PRESENT key holding None rather than an absent one. */
  function ToDict(p: ICPPrefs): (d: PrefsDict)
    ensures d.industries == Some(p.industries) && d.countries == Some(p.countries)
    ensures d.states == Some(p.states)
    ensures d.revMin.Some? && d.revMax.Some?
    ensures p.revMin.None? ==> d.revMin == Some(Null)
    ensures p.revMax.None? ==> d.revMax == Some(Null)
    ensures p.revMin.Some? ==> d.revMin == Some(Num(p.revMin.value as real))
    ensures p.revMax.Some? ==> d.revMax == Some(Num(p.revMax.value as real))
  {
    PrefsDict(Some(p.industries), Some(p.countries), Some(p.states),
              Some(Bound(p.revMin)), Some(Bound(p.revMax)))
  }

  function Bound(b: Option<int>): Value {
    match b
    case None => Null
    case Some(n) => Num(n as real)
  }

  /** `_merge(a, b)`: a copy of `a` updated with `b` (nothing when `b` is None). */
  function Merge(a: Dict, b: Option<Dict>): (c: Dict)
    ensures b.None? ==> c == a
    ensures b.Some? ==> c.Keys == a.Keys + b.value.Keys
    ensures b.Some? ==> forall k :: k in b.value ==> c[k] == b.value[k]
    ensures b.Some? ==> forall k :: k in a && k !in b.value ==> c[k] == a[k]
  {
    match b
    case None => a
    case Some(m) => a + m
  }

  /** `load_weights` with its reads done by the caller: each source is the
      dictionary already parsed from the environment variable, the explicit
      file and the default config file (`None` when that source is unset,
      missing or, for the environment variable, not valid JSON). The first
      source present wins outright and is merged onto the defaults. */
  function LoadWeights(env: Option<Dict>, explicitFile: Option<Dict>, configFile: Option<Dict>): (w: Dict)
    ensures DefaultWeights.Keys <= w.Keys
    ensures env.Some? ==> w == Merge(DefaultWeights, env)
    ensures env.None? && explicitFile.Some? ==> w == Merge(DefaultWeights, explicitFile)
    ensures env.None? && explicitFile.None? && configFile.Some? ==> w == Merge(DefaultWeights, configFile)
    ensures env.None? && explicitFile.None? && configFile.None? ==> w == DefaultWeights
  {
    if env.Some? then Merge(DefaultWeights, env)
    else if explicitFile.Some? then Merge(DefaultWeights, explicitFile)
    else if configFile.Some? then Merge(DefaultWeights, configFile)
    else DefaultWeights
  }

  /** When a source is present, a later source has no influence at all: the
      sources are alternatives, not layers. */
  lemma LoadWeightsFirstSourceWins(env: Dict, explicitFile: Option<Dict>, configFile: Option<Dict>,
                                   otherFile: Option<Dict>, otherConfig: Option<Dict>)
    ensures LoadWeights(Some(env), explicitFile, configFile) == LoadWeights(Some(env), otherFile, otherConfig)
    ensures forall k :: k in DefaultWeights && k !in env ==> LoadWeights(Some(env), explicitFile, configFile)[k] == DefaultWeights[k]
  {
  }

  datatype Priority = Hot | Warm | Cold {
    /** The label string the API and the UI show. */
    function Name(): string {
      match this
      case Hot => "Hot"
      case Warm => "Warm"
      case Cold => "Cold"
    }

    /** Tier order: Cold below Warm below Hot. */
    function Rank(): nat {
      match this
      case Cold => 0
      case Warm => 1
      case Hot => 2
    }
  }

  /** The tier of a score given the two thresholds, each inclusive at its lower
      end. Total for every pair of thresholds, ordered or not. */
  function Tier(score: int, hot: int, warm: int): (p: Priority)
    ensures p == Hot <==> score >= hot
    ensures p == Warm <==> score < hot && score >= warm
    ensures p == Cold <==> score < hot && score < warm
  {
    if score >= hot then Hot
    else if score >= warm then Warm
    else Cold
  }

  /** With ordered thresholds a higher score never gets a lower tier. */
  lemma TierMonotone(s: int, t: int, hot: int, warm: int)
    requires hot >= warm
    requires s <= t
    ensures Tier(s, hot, warm).Rank() <= Tier(t, hot, warm).Rank()
  {
  }

  /** With inverted thresholds nothing is rejected: the Warm tier is simply empty. */
  lemma InvertedThresholdsNeverWarm(score: int, hot: int, warm: int)
    requires hot < warm
    ensures Tier(score, hot, warm) != Warm
  {
  }

  /** `int(weights.get("hot_threshold", 70))`; `None` when `int()` raises. */
  function HotThreshold(w: Dict): Option<int> {
    ToInt(GetOr(w, "hot_threshold", Num(70.0)))
  }

  /** `int(weights.get("warm_threshold", 40))`; `None` when `int()` raises. */
  function WarmThreshold(w: Dict): Option<int> {
    ToInt(GetOr(w, "warm_threshold", Num(40.0)))
  }

  /** `priority_label(score, weights)`; `None` when reading a threshold raises. */
  function PriorityLabel(score: int, w: Dict): (p: Option<Priority>)
    ensures p.Some? <==> HotThreshold(w).Some? && WarmThreshold(w).Some?
    ensures p.Some? ==> (p.value == Hot <==> score >= HotThreshold(w).value)
    ensures p.Some? ==> (p.value == Warm <==> score < HotThreshold(w).value && score >= WarmThreshold(w).value)
    ensures p.Some? ==> (p.value == Cold <==> score < HotThreshold(w).value && score < WarmThreshold(w).value)
  {
    match (HotThreshold(w), WarmThreshold(w))
    case (Some(hot), Some(warm)) => Some(Tier(score, hot, warm))
    case _ => None
  }

  /** Missing thresholds default to 70 and 40, and the default table holds
      the same two values. */
  lemma DefaultThresholds(w: Dict)
    requires "hot_threshold" !in w && "warm_threshold" !in w
    ensures HotThreshold(w) == Some(70) && WarmThreshold(w) == Some(40)
    ensures HotThreshold(DefaultWeights) == Some(70) && WarmThreshold(DefaultWeights) == Some(40)
  {
  }

  /** The default labels of the backend's threshold test: 80 and 70 are Hot,
      55 and 40 Warm, 39 Cold. */
  lemma DefaultLabelExamples()
    ensures PriorityLabel(80, DefaultWeights) == Some(Hot)
    ensures PriorityLabel(70, DefaultWeights) == Some(Hot)
    ensures PriorityLabel(55, DefaultWeights) == Some(Warm)
    ensures PriorityLabel(40, DefaultWeights) == Some(Warm)
    ensures PriorityLabel(39, DefaultWeights) == Some(Cold)
  {
    DefaultThresholds(map[]);
  }
}
