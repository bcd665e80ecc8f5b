# Lead scoring: a Dafny model

This project models the core of a small lead-scoring application:

- **Backend scorer** (`backend/scoring.py`). It turns one lead record, a weight table and the buyer's ideal-customer-profile (ICP) preferences into an integer score. The score sums six parts:
  - employee-band fit;
  - revenue-band fit;
  - industry match;
  - location match;
  - contact completeness;
  - growth signal.
- **Configuration** (`backend/scoring_config.py`): the default weight table, the `ICPPrefs` record, the weight-source precedence of `load_weights`, and `priority_label`, which maps a score to Hot, Warm or Cold.
- **Query stage of `GET /api/leads`** (`backend/routes.py`). It scores and labels every lead, drops the leads below a positive `min_score`, and, for `sort=score_desc`, applies a stable sort with the highest score first.
- **Browser side**:
  - `parseCSVish`, which turns the comma-separated preference fields into lists (`frontend/src/App.tsx`);
  - the request the form builds;
  - the two dashboard aggregations: the average score per industry, keeping the top five, and the count of hot leads per country;
  - the score badge.

Python's dynamic values are a `Value` datatype (`PyValues`). Dictionaries are `map<string, Value>`. Numbers are exact reals, so float rounding is not modelled. Python's `round` is round-half-to-even (`PyNumbers.RoundHalfEven`). JavaScript's `Math.round` rounds halves upward (`IndustryChart.JsRound`).

Three Python failures are modelled, each as an `Option` whose `None` stands for the exception:
- `int()` of an unreadable threshold inside `priority_label`;
- `int()` of the `min_score` text, where the route itself catches the failure and uses 0;
- `float()` of unreadable text inside `_to_number` (`PyNumbers.ParseFloat`), where the scorer catches the failure and reads 0.

Other exceptions the scorer can raise are outside the model's value space. An example is the `TypeError` from a preference key holding None (see "Left out").

Reading files and environment variables is not modelled. The JSON documents those reads would produce are passed in as parameters.

The module layout follows the program's structure:

| module | models |
|---|---|
| `Text` | Python `strip`, JavaScript `trim`, `split` and `join` |
| `PyNumbers` | `float()`, `int()`, truncation and banker's rounding |
| `PyValues` | dict access and truthiness |
| `ScoringConfig` | the configuration module |
| `Scoring` | the scorer |
| `StableSort` | the stable sort both sides use |
| `Routes` | the endpoint |
| `Grouping` | the `forEach` accumulation into an object |
| `LeadView` | the browser's lead |
| `IndustryChart`, `GeoChart`, `ScoreBadge`, `App` | the frontend files of the same names |
| `Scenarios` | the repository's test cases, restated as lemmas about the model |

Behaviour worth noting:

- Weights are summed as given, not normalised by their total. The result is capped at 100.
- Industry and country matching is exact and case-sensitive, after `strip()`. An empty preference list gives no credit; it does not match everything.
- There is no partial location credit. A country match or a state match gives the whole location weight.
- The growth signal is all-or-nothing: a non-zero rank of at most 10000, or a truthy `hiring`, adds the whole growth weight. A missing `hiring` counts as false.
- Band fit outside the band is `x/lo` below it and `hi/x` above it, clamped to [0, 1].
- Neither thresholds, revenue bounds nor `min_score` are validated. `min_score` values of 0 or below switch the filter off (`Routes.ApplyMinScore`). Inverted thresholds never yield Warm (`ScoringConfig.InvertedThresholdsNeverWarm`).
- The sort orders by score only and is stable. There is no name tie-break.
- A present `rev_min: None` preference reads as 0 and switches the revenue part off (`Scoring.NullPrefBoundDisablesRevenue`). `ICPPrefs.to_dict` always writes both bounds, so an `ICPPrefs` without revenue bounds gives no revenue credit. That is why the hot lead in `backend/tests/test_scoring.py` scores 80, not 100 (`Scenarios.HotLeadScore`).

## Model

| member | source | states |
|---|---|---|
| Text.Strip | backend/scoring.py:21 | the result is a slice `s[a..b]` of the input with only white space outside it and none at either end; an already trimmed string is unchanged, and an all-space input gives the empty string |
| Text.UpperAscii | backend/scoring.py:21 | upper-casing keeps the length, leaves no ASCII lower-case letter, maps each lower-case letter to its capital at the same position, and leaves every other character unchanged |
| Text.Without | backend/scoring.py:31 | no removed character is left, and text without them is unchanged |
| Text.WithoutKeepsOrder | backend/scoring.py:31 | the characters left keep their input order |
| Text.WithoutCounts | backend/scoring.py:31 | every character not removed is kept exactly as often as it occurs |
| Text.WithoutCons | backend/scoring.py:31 | removal decides each character on its own, from the front |
| Text.Split | frontend/src/App.tsx:8 | `split(",")` yields at least one piece, no piece holds the separator, and every character comes from the input |
| Text.JoinSplit | frontend/src/App.tsx:8 | joining the pieces of a split with the separator gives back the input |
| Text.SplitJoin | frontend/src/App.tsx:8 | splitting the join of separator-free pieces gives back the pieces |
| PyNumbers.ParseFloatDigits | backend/scoring.py:33 | `float()` of a non-empty digit string is its decimal value |
| PyNumbers.ParseIntDigits | backend/routes.py:37 | `int()` of a non-empty digit string is its decimal value |
| PyNumbers.ParseFloat | backend/scoring.py:32-35 | `float()` succeeds only on text holding a digit |
| PyNumbers.ParseFloatPoint | backend/scoring.py:33 | `float()` of `w.f` with digit strings `w` and `f` is the whole part plus the fraction shifted by its length |
| PyNumbers.ParseInt | backend/routes.py:36-39 | `int()` succeeds only on text holding a digit |
| PyNumbers.ParseIntText | backend/routes.py:37 | `int(str(n)) == n` for every integer |
| PyNumbers.Trunc | backend/scoring_config.py:80-81 | `int()` of a number truncates toward zero, for either sign |
| PyNumbers.RoundHalfEven | backend/scoring.py:111 | `round()` is within one half of its argument and picks the even neighbour on a tie |
| PyNumbers.RoundHalfEvenUnique | backend/scoring.py:111 | any integer within one half that is even on a tie is the rounding, so the rounding is unique |
| PyValues.Get | backend/scoring.py:61 | `d.get(k)` is the stored value, or None for a missing key |
| PyValues.GetOr | backend/scoring.py:74-75 | `d.get(k, default)` uses the default only for a missing key, even when a present value is None |
| PyValues.Or | backend/scoring.py:61 | `a or b` is `a` exactly when `a` is truthy |
| PyValues.Truthy | backend/scoring.py:100 | a value is falsy iff it is None, False, 0 or the empty string |
| PyValues.StrOf | backend/scoring.py:87 | `str()` of a string is itself and of None is "None"; numbers are the values whose text is not modelled |
| PyValues.ToInt | backend/scoring_config.py:80-81 | `int(v)` fails on None and non-finite numbers, truncates numbers and parses strings |
| ScoringConfig.DefaultWeightsConsistent | backend/scoring_config.py:8-26 | the default signal weights sum to 100, hot >= warm, and both bands are ordered |
| ScoringConfig.ToDict | backend/scoring_config.py:29-38 | `to_dict` carries all three lists and always writes both revenue keys, as None when unset |
| ScoringConfig.Merge | backend/scoring_config.py:40-43 | the merged keys are the union; the override wins on shared keys; other keys keep the base value; no override returns the base |
| ScoringConfig.LoadWeights | backend/scoring_config.py:45-76 | the environment document wins, then the explicit file, then the config file, each merged over the defaults; with none, the defaults; every default key is present |
| ScoringConfig.LoadWeightsFirstSourceWins | backend/scoring_config.py:53-60 | once the environment document parses, the files do not matter, and keys it lacks keep their default values |
| ScoringConfig.Tier | backend/scoring_config.py:82-86 | Hot iff score >= hot; Warm iff below hot and >= warm; Cold iff below both |
| ScoringConfig.TierMonotone | backend/scoring_config.py:82-86 | with hot >= warm, a higher score never gets a lower tier |
| ScoringConfig.InvertedThresholdsNeverWarm | backend/scoring_config.py:82-86 | with hot < warm, no score is labelled Warm |
| ScoringConfig.PriorityLabel | backend/scoring_config.py:78-86 | a label exists iff both thresholds read as integers, and then the tier conditions hold in both directions |
| ScoringConfig.DefaultThresholds | backend/scoring_config.py:80-81 | missing thresholds read as 70 and 40, as do the default table's |
| ScoringConfig.DefaultLabelExamples | backend/tests/test_scoring.py:31-37 | under the defaults, 80 and 70 are Hot, 55 and 40 are Warm, and 39 is Cold |
| Scoring.ClampUnit | backend/scoring.py:9-10 | the result lies in [0, 1] and equals the input inside it, 0 below it and 1 above it |
| Scoring.ToNumber | backend/scoring.py:12-20 | None and non-finite numbers read as 0, finite numbers as themselves, booleans as 0 or 1 |
| Scoring.ToNumberPlain | backend/scoring.py:14-35 | a numeral of digits, points, `$` and `,` reads as `float()` of it once `$` and `,` are dropped, so "12,345" is 12345 |
| Scoring.ToNumberSuffix | backend/scoring.py:14-35 | such a numeral followed by K, M or B of either case reads as that value times 1e3, 1e6 or 1e9 |
| Scoring.NoDigitReadsZero | backend/scoring.py:15 | text without a digit reads as 0, the failure value |
| Scoring.ToNumberExamples | backend/scoring.py:14 | "12,345" reads as 12345 and "$1.2M" as 1200000 |
| Scoring.MissingWeightReadsDefault | backend/scoring.py:63 | a weight key missing from the table reads as the scorer's built-in default |
| Scoring.DefaultWeightReads | backend/scoring.py:63-108 | the default table's signal weights read as 25, 20, 15, 10, 20 and 10, and the employee band as 10 to 200 |
| Scoring.DefaultSignalWeights | backend/scoring_config.py:15-21 | the default weights, and the built-in defaults used for an empty table, are non-negative and sum to 100 |
| Scoring.FalsyFieldsFallBack | backend/scoring.py:61 | a falsy `employee_count` or `revenue_usd` falls back to `employees` or `revenue`; a truthy one is used |
| Scoring.BandFit | backend/scoring.py:64-69 | the fit lies in [0, 1] and is 1 exactly inside the band; below the band it is `x/lo`, above a band with a non-negative upper bound it is `hi/x`, and above a negative upper bound it is 0 |
| Scoring.BandFitIncreasesBelowBand | backend/scoring.py:66-67 | below the band, a value nearer the lower bound fits strictly better |
| Scoring.BandFitFallsAboveBand | backend/scoring.py:68-69 | above the band, a larger value never fits better |
| Scoring.EmployeeFit | backend/scoring.py:60-70 | the fit lies in [0, 1], is 0 for a non-positive count, and is 1 exactly when a positive count lies in the band |
| Scoring.RevenueFit | backend/scoring.py:72-83 | the fit lies in [0, 1], is 0 unless revenue and both bounds are positive and ordered, and is 1 exactly when revenue lies in the band |
| Scoring.NullPrefBoundDisablesRevenue | backend/scoring.py:74-76 | a preference bound present as None switches the revenue part off |
| Scoring.RevenueBoundsSource | backend/scoring.py:74-75 | a present preference bound overrides the weight table; an absent one reads the table's `rev_min` or `rev_max` with its default |
| Scoring.PrefSet | backend/scoring.py:86 | the set holds exactly the listed entries; it is empty when the key is absent |
| Scoring.LeadText | backend/scoring.py:87-93 | a missing field reads as ""; a string field reads stripped; only numbers have no text in the model |
| Scoring.IndustryMatch | backend/scoring.py:86-88 | the industry matches iff the lead has an industry text and the preference list holds it |
| Scoring.LocationMatch | backend/scoring.py:90-95 | the location matches iff the country list holds the lead's country or the state list holds its state |
| Scoring.LeadTextOfTrimmed | backend/scoring.py:87 | a trimmed string field is compared as it is |
| Scoring.IndustryMatchOfText | backend/scoring.py:86-88 | the industry matches iff its stripped text is in the preference list |
| Scoring.CountryMatchOfText | backend/scoring.py:90-95 | a listed country gives a location match |
| Scoring.MatchNeedsList | backend/scoring.py:86-95 | a match needs a non-empty industry list, or a non-empty country or state list |
| Scoring.ContactCount | backend/scoring.py:98-101 | the count is the number of channels among email, phone and linkedin whose value is truthy, so it is at most 3; it is 0 iff none is truthy and 3 iff all three are |
| Scoring.GrowthSignal | backend/scoring.py:104-108 | a truthy `hiring` always fires; without it, a missing rank never does, and a numeric rank fires iff it is non-zero and at most 10000 |
| Scoring.EmployeeTerm | backend/scoring.py:70 | the employee part lies between 0 and its weight, and is 0 for a non-positive count |
| Scoring.RevenueTerm | backend/scoring.py:83 | the revenue part lies between 0 and its weight, and is 0 when revenue is not scored |
| Scoring.ContactTerm | backend/scoring.py:102 | the contact part lies between 0 and its weight, is 0 with no channel, and is the full weight with all three |
| Scoring.RawScore | backend/scoring.py:58-108 | a lead with no signal sums to 0, and a lead with every signal in full sums to the weight total |
| Scoring.RawScoreBounds | backend/scoring.py:58-108 | with non-negative weights, the uncapped sum lies between 0 and the weight total |
| Scoring.ScoreLead | backend/scoring.py:37-111 | the score is at most 100 and is 100 when the sum reaches 100; otherwise it is within one half of the sum; with non-negative weights it is at least 0 |
| Scoring.ScoreOfRaw | backend/scoring.py:111 | a sum of at most 100 is rounded half-to-even |
| Scoring.ScoreIsRoundedRaw | backend/scoring.py:110-111 | non-negative weights totalling at most 100 give a score in [0, 100], the rounding of the sum |
| Scoring.DefaultScoreIsRoundedRaw | backend/scoring_config.py:8-26 | under the default table, or an empty one, every lead scores in [0, 100] |
| Scoring.Normalize | backend/scoring.py:50-54 | no preferences give no lists and no bounds; a dictionary is used as it is; an `ICPPrefs` gives its three lists and both bounds |
| Scoring.EmptyLeadScoresZero | backend/scoring.py:61-108 | an empty lead scores 0 unless an empty string is a listed preference |
| Scoring.EffectiveWeights | backend/scoring.py:118 | an empty or missing weight table is replaced by the loaded one |
| Scoring.Labelled.AsDict | backend/scoring.py:124-126 | the output has the input's keys plus `score` and `priority`, holding the score and the label name, and every other key keeps its value |
| Scoring.ScoreAndLabelLeads | backend/scoring.py:113-128 | the call fails iff there is a lead and the thresholds cannot be read; otherwise there is one entry per lead, in order, holding the lead, its score and the label of that score |
| StableSort.Insert | backend/routes.py:44-45 | insertion keeps the order, adds exactly the element, and places it first among equal keys |
| StableSort.SortDesc | backend/routes.py:44-45 | the output is non-increasing, a permutation, and stable: the elements with each key keep their input order |
| StableSort.SortDescOfSorted | backend/routes.py:44-45 | sorting an already ordered list changes nothing |
| StableSort.SortDescIdempotent | backend/routes.py:44-45 | sorting twice is sorting once |
| StableSort.PermutationKeepsUnique | frontend/src/components/IndustryChart.tsx:14-16 | rearranging entries with unique names keeps the names unique |
| Routes.MinScoreParam | backend/routes.py:36-39 | a missing parameter is 0, a parsable one is its value, an unparsable one is 0 |
| Routes.MinScoreParamText | backend/routes.py:36-37 | a threshold written as an integer's decimal text reads back as that integer |
| Routes.AtLeast | backend/routes.py:41 | every kept element reaches the threshold |
| Routes.AtLeastKeepsOrder | backend/routes.py:41 | the filter keeps the order of what it keeps |
| Routes.AtLeastCounts | backend/routes.py:41 | the filter keeps every element at or above the threshold as often as it occurs, and nothing else |
| Routes.ApplyMinScore | backend/routes.py:40-41 | a threshold of 0 or below keeps everything |
| Routes.ApplySort | backend/routes.py:44-45 | only `score_desc` sorts; the result is a stable permutation either way |
| Routes.Refine | backend/routes.py:35-45 | the result holds exactly the leads at or above a positive threshold, each as often as in the input; it is sorted for `score_desc` and keeps input order otherwise |
| Routes.GetLeads | backend/routes.py:23-47 | the request fails iff there are leads and the thresholds cannot be read; otherwise the result is the refined scored list |
| Grouping.IndexOfKey | frontend/src/components/IndustryChart.tsx:10 | the position found is the first entry with the key, or past the end when there is none |
| Grouping.Add | frontend/src/components/IndustryChart.tsx:10-12 | one step creates a missing entry at the end, or updates only the existing entry for the key, and keeps the keys distinct |
| Grouping.Group | frontend/src/components/IndustryChart.tsx:7-13 | the entries have distinct keys; each holds the count and sum of its key's items; every key in use has an entry |
| Grouping.GroupKeys | frontend/src/components/IndustryChart.tsx:7-14 | an entry exists for a key iff some item has that key |
| Grouping.GroupTotal | frontend/src/components/GeoChart.tsx:7-11 | the entry counts add up to the number of keyed items |
| LeadView.ScoreOrZero | frontend/src/components/IndustryChart.tsx:11 | an absent score counts as 0 |
| LeadView.TruthyKey | frontend/src/components/IndustryChart.tsx:9 | a field is used as a key iff it is present and not empty |
| IndustryChart.JsRound | frontend/src/components/IndustryChart.tsx:15 | `Math.round` is within one half, with halves rounded up |
| IndustryChart.JsRoundUnique | frontend/src/components/IndustryChart.tsx:15 | the integer meeting that bound is unique |
| IndustryChart.ToBars | frontend/src/components/IndustryChart.tsx:14-15 | each bar is its industry with the rounded mean of its scores |
| IndustryChart.IndustryBars | frontend/src/components/IndustryChart.tsx:7-15 | the bars name each industry in use exactly once, with its mean score |
| IndustryChart.DescribesPermutation | frontend/src/components/IndustryChart.tsx:16 | reordering the bars keeps that description |
| IndustryChart.RankedBars | frontend/src/components/IndustryChart.tsx:14-16 | the ranked bars are in non-increasing score order and still describe every industry |
| IndustryChart.TopIndustries | frontend/src/components/IndustryChart.tsx:7-17 | at most 5 bars, in non-increasing score order, with distinct industries, each with that industry's mean |
| IndustryChart.TopIndustriesComplete | frontend/src/components/IndustryChart.tsx:16-17 | an industry in use that is not shown was cut: all 5 shown score at least as high |
| GeoChart.GeoKey | frontend/src/components/GeoChart.tsx:9 | a lead is counted iff it has a non-empty country and a score of at least 70 |
| GeoChart.HotByCountry | frontend/src/components/GeoChart.tsx:7-12 | one slice per country, distinct, each with its number of hot leads; every country with a hot lead has a slice |
| GeoChart.HotByCountryTotal | frontend/src/components/GeoChart.tsx:7-12 | the slices add up to the number of hot leads with a country |
| ScoreBadge.BadgeLabel | frontend/src/components/ScoreBadge.tsx:6-19 | a missing score is Cold; Hot iff >= 70, Warm iff 40 to 69, Cold iff below 40 |
| ScoreBadge.BadgeMatchesDefaultLabel | frontend/src/components/ScoreBadge.tsx:11-19 | the badge agrees with the backend label whenever the thresholds are the defaults |
| ScoreBadge.BadgeIgnoresConfiguredThresholds | frontend/src/components/ScoreBadge.tsx:11 | with a configured hot threshold of 80, the backend says Warm for 75 while the badge says Hot |
| App.Trim | frontend/src/App.tsx:9 | `trim()` gives a slice of the input with only white space outside it and none at either end, and keeps trimmed text unchanged |
| App.DropEmpty | frontend/src/App.tsx:10 | `filter(Boolean)` keeps the input order, holds no empty string, and holds every non-empty entry exactly as often as the input does |
| App.DropEmptyUnique | frontend/src/App.tsx:10 | any list that keeps the input order and has those counts is the filter's result |
| App.DropEmptyNoBlank | frontend/src/App.tsx:10 | with no empty entry, nothing is dropped |
| App.DropEmptyAllBlank | frontend/src/App.tsx:10 | with only empty entries, nothing is kept |
| App.ParseCsvish | frontend/src/App.tsx:6-11 | the entries are the trimmed comma-separated pieces in input order, every non-blank piece as often as it occurs and no blank one; each entry is trimmed, comma-free and made of input characters |
| App.ParseCsvishEntries | frontend/src/App.tsx:6-11 | that order-and-count description has exactly one solution, so it determines the parse |
| App.BlankInputIsEmpty | frontend/src/App.tsx:6-11 | input of only commas and spaces gives no entries |
| App.ParseCsvishJoin | frontend/src/App.tsx:6-11 | parsing the comma-join of a parse gives the same list back |
| App.FormPrefs | frontend/src/App.tsx:25-33 | the form sends both parsed lists, no states, and each revenue bound only when it is set |
| App.FormBoundFallsBack | frontend/src/App.tsx:29 | an unset form bound leaves the server's weight-table bound in force |
| App.QueryParams | frontend/src/App.tsx:39-45 | the request always sorts by score; its threshold is 70 with "top only" and 0 otherwise |
| App.TopLeadsOnly | frontend/src/App.tsx:43-45 | with "top only", every returned row scores at least 70 and the rows are highest first |
| Scenarios.HotLeadScore | backend/tests/test_scoring.py:7-27 | the test's hot lead scores 80 under its preferences |
| Scenarios.ColdLeadScore | backend/tests/test_scoring.py:16-28 | the test's cold lead scores 22 |
| Scenarios.TestLeadLabels | backend/tests/test_scoring.py:27-29 | 80 is Hot and 22 is Cold under the defaults |
| Scenarios.NameOnlyLeadScore | backend/tests/test_scoring.py:39-43 | a lead with only a name scores 0 under any weight table |
| Scenarios.AcmeScore | backend/tests/test_api_leads.py:9-17 | the API test's first lead scores 100 |
| Scenarios.TinyScore | backend/tests/test_api_leads.py:18-24 | the API test's second lead scores 26 |
| Scenarios.ApiScored | backend/tests/test_api_leads.py:9-33 | the two leads are labelled Hot at 100 and Cold at 26, in order |
| Scenarios.RefineKeepsTop | backend/routes.py:40-45 | a threshold between two scores, with sorting, leaves only the higher one |
| Scenarios.ApiTestResponse | backend/tests/test_api_leads.py:28-41 | the request returns the Acme lead alone, scored 100 and labelled Hot |

## Left out

- File, environment and network reads: `load_weights`, `fetch_leads_somehow` and `_parse_json_qs`. Their parsed results are parameters. A document that is not a JSON object is not modelled.
- Floating point: all arithmetic is exact. Overflow, `1e309`-style infinities and rounding errors of the source are not modelled.
- Scoring.ToNumber: strings spelling `inf` or `nan`, digit separators written with `_`, and non-ASCII digits are not parsed as Python parses them. Only ASCII letters are upper-cased.
- Scoring.LeadText: `str()` of a number is not modelled. A numeric industry, country or state never matches.
- Scoring.PrefSet: a preference key must hold a list of strings or be absent. In Python, a list holding non-strings is converted with `str()`. A key holding None raises `TypeError` at `backend/scoring.py:86`, `:90` or `:91`. A key holding a string becomes the set of its characters. None of these three cases is modelled.
- Routes.MinScoreParam: `int()` also accepts `_` between digits, as in "7_0", and non-ASCII decimal digits. The model reads such text as unparsable, so the threshold is 0.
- PyValues.ToInt: the same two `int()` forms are not modelled for threshold strings.
- Text.Without: its contract states only that no removed character is left. `Text.WithoutKeepsOrder` and `Text.WithoutCounts` state what is kept and in what order.
- Routes.AtLeast: its contract states only that kept elements reach the threshold. `Routes.AtLeastCounts` and `Routes.AtLeastKeepsOrder` state which elements are kept and in what order.
- IndustryChart.TopIndustries: `Object.entries` lists integer-like keys first, in numeric order. The model assumes no industry or country name is such a key, and that none is an `Object.prototype` member name.
- GeoChart.HotByCountry: the same `Object.entries` key-order assumption as above.
- ScoreBadge.BadgeLabel: only the label is modelled. The colours and icons are display only.
- Rendering, React state and the dark-mode and stepper components are presentation only.
- Flask request parsing and JSON serialisation are not modelled.
- Object identity is not modelled: the copy `dict(ld)` is a fresh value in the model.
