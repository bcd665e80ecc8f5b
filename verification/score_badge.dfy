/** The score badge of the lead table: a Hot, Warm or Cold label from the
    score, with fixed cut-offs 70 and 40. */
module ScoreBadge {
  import opened Options
  import opened ScoringConfig

  /** The label for a score; an absent score is shown as 0. */
  function BadgeLabel(score: Option<int>): (p: Priority)
    ensures score.None? ==> p == Cold
    ensures score.Some? ==> (p == Hot <==> score.value >= 70)
    ensures score.Some? ==> (p == Warm <==> 40 <= score.value < 70)
    ensures score.Some? ==> (p == Cold <==> score.value < 40)
  {
    var s := if score.Some? then score.value else 0;
    if s >= 70 then Hot
    else if s >= 40 then Warm
    else Cold
  }

  /** The badge agrees with the backend's label under the default thresholds
      (and under any weights that leave the thresholds out). */
  lemma BadgeMatchesDefaultLabel(s: int, w: PyValues.Dict)
    requires "hot_threshold" !in w && "warm_threshold" !in w
    ensures PriorityLabel(s, DefaultWeights) == Some(BadgeLabel(Some(s)))
    ensures PriorityLabel(s, w) == Some(BadgeLabel(Some(s)))
  {
    DefaultThresholds(w);
  }

  /** With other thresholds the two can disagree: at hot threshold 80, a 75 is
      Warm in the API's `priority` but Hot on the badge. */
  lemma BadgeIgnoresConfiguredThresholds()
    ensures PriorityLabel(75, map["hot_threshold" := PyValues.Num(80.0)]) == Some(Warm)
    ensures BadgeLabel(Some(75)) == Hot
  {
    DefaultThresholds(map[]);
  }
}
