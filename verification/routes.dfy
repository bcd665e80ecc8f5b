/** The query stage of `GET /api/leads`: score and label the leads, keep
    those at or above `min_score` when it is positive, and sort by score,
    highest first, when `sort=score_desc`. Reading the leads file, parsing the
    `prefs` JSON and serialising the response are outside the model. */
module Routes {
  import opened Options
  import opened ScoringConfig
  import opened Scoring
  import PyNumbers
  import StableSort
  import opened Seqs

  /** `int(request.args.get("min_score", "0"))`, with 0 when `int()` raises. */
  function MinScoreParam(arg: Option<string>): (m: int)
    ensures arg.None? ==> m == 0
    ensures arg.Some? && PyNumbers.ParseInt(arg.value).Some? ==> m == PyNumbers.ParseInt(arg.value).value
    ensures arg.Some? && PyNumbers.ParseInt(arg.value).None? ==> m == 0
  {
    var text := if arg.Some? then arg.value else "0";
    match PyNumbers.ParseInt(text)
    case Some(n) => n
    case None => 0
  }

  /** A threshold the client writes as `str(n)` is read back as `n`. */
  lemma MinScoreParamText(n: int)
    ensures MinScoreParam(Some(PyNumbers.IntText(n))) == n
  {
    PyNumbers.ParseIntText(n);
  }

  /** The elements whose key is at least `m`, in their original order (the
      filter keeps the leads whose score is at least `min_score`). */
  function AtLeast<T>(xs: seq<T>, key: T -> int, m: int): (r: seq<T>)
    ensures forall i :: 0 <= i < |r| ==> key(r[i]) >= m
  {
    if |xs| == 0 then []
    else
      var rest := AtLeast(xs[1..], key, m);
      if key(xs[0]) >= m then [xs[0]] + rest else rest
  }

  /** The filter keeps the original order of what it keeps. */
  lemma {:induction false} AtLeastKeepsOrder<T>(xs: seq<T>, key: T -> int, m: int)
    ensures Subsequence(AtLeast(xs, key, m), xs)
  {
    if |xs| > 0 {
      AtLeastKeepsOrder(xs[1..], key, m);
      var rest := AtLeast(xs[1..], key, m);
      if key(xs[0]) >= m {
        assert ([xs[0]] + rest)[1..] == rest;
      } else if |rest| > 0 {
        assert rest[0] != xs[0] by {
          assert key(rest[0]) >= m;
        }
      }
    }
  }

  /** The filter keeps every element at or above the threshold exactly as
      often as the input holds it, and nothing else. */
  lemma {:induction false} AtLeastCounts<T>(xs: seq<T>, key: T -> int, m: int)
    ensures forall x :: multiset(AtLeast(xs, key, m))[x] == if key(x) >= m then multiset(xs)[x] else 0
  {
    if |xs| > 0 {
      AtLeastCounts(xs[1..], key, m);
      assert xs == [xs[0]] + xs[1..];
    }
  }

  /** The optional filter: applied only for a positive threshold, so 0 and
      negative thresholds keep everything. */
  function ApplyMinScore(xs: seq<Labelled>, m: int): (r: seq<Labelled>)
    ensures m <= 0 ==> r == xs
    ensures m > 0 ==> r == AtLeast(xs, ScoreKey, m)
  {
    if m > 0 then AtLeast(xs, ScoreKey, m) else xs
  }

  /** The sort key: the score. */
  function ScoreKey(x: Labelled): int {
    x.score
  }

  /** The optional sort: only the exact value `score_desc` sorts; any other
      value, or none, leaves the order alone. */
  function ApplySort(xs: seq<Labelled>, sort: Option<string>): (r: seq<Labelled>)
    ensures sort != Some("score_desc") ==> r == xs
    ensures sort == Some("score_desc") ==> StableSort.NonIncreasing(r, ScoreKey)
    ensures multiset(r) == multiset(xs)
    ensures forall k :: StableSort.WithKey(r, ScoreKey, k) == StableSort.WithKey(xs, ScoreKey, k)
  {
    if sort == Some("score_desc") then StableSort.SortDesc(xs, ScoreKey) else xs
  }

  /** Steps 4 and 5 of `get_leads` on the scored list, given the parsed
      threshold `m`: the optional filter, then the optional sort. */
  function Refine(scored: seq<Labelled>, m: int, sort: Option<string>): (r: seq<Labelled>)
    ensures forall x :: multiset(r)[x] == if m > 0 && x.score < m then 0 else multiset(scored)[x]
    ensures m > 0 ==> forall i :: 0 <= i < |r| ==> r[i].score >= m
    ensures sort == Some("score_desc") ==> StableSort.NonIncreasing(r, ScoreKey)
    ensures sort != Some("score_desc") ==> Subsequence(r, scored)
    ensures forall k :: StableSort.WithKey(r, ScoreKey, k) == StableSort.WithKey(ApplyMinScore(scored, m), ScoreKey, k)
  {
    var kept := ApplyMinScore(scored, m);
    assert forall x :: multiset(kept)[x] == if m > 0 && x.score < m then 0 else multiset(scored)[x] by {
      if m > 0 { AtLeastCounts(scored, ScoreKey, m); }
    }
    assert Subsequence(kept, scored) by {
      if m > 0 { AtLeastKeepsOrder(scored, ScoreKey, m); } else { SubsequenceRefl(scored); }
    }
    var r := ApplySort(kept, sort);
    assert multiset(r) == multiset(kept);
    r
  }

  /** `get_leads` after the reads: `loaded` is the result of `load_weights()`,
      `prefs` the parsed `prefs` parameter, `minScore` and `sort` the raw query
      parameters. `None` is the server error raised when a threshold cannot be
      read. */
  function GetLeads(leads: seq<PyValues.Dict>, prefs: PrefsArg, loaded: PyValues.Dict,
                    minScore: Option<string>, sort: Option<string>): (r: Option<seq<Labelled>>)
    ensures r.None? <==> |leads| > 0 && PriorityLabel(0, loaded).None?
    ensures r.Some? ==> r.value == Refine(ScoreAndLabelLeads(leads, Some(loaded), loaded, prefs).value, MinScoreParam(minScore), sort)
  {
    match ScoreAndLabelLeads(leads, Some(loaded), loaded, prefs)
    case None => None
    case Some(scored) => Some(Refine(scored, MinScoreParam(minScore), sort))
  }
}
