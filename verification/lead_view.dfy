/** The frontend's view of a lead: the fields the dashboard charts read. */
module LeadView {
  import opened Options

  /** A lead as the browser receives it; `None` is an absent (undefined) field. */
  datatype Lead = Lead(industry: Option<string>, country: Option<string>, score: Option<int>)

  /** `l.score ?? 0`, equivalently `l.score || 0` for an integer score. */
  function ScoreOrZero(l: Lead): (s: int)
    ensures l.score.Some? ==> s == l.score.value
    ensures l.score.None? ==> s == 0
  {
    if l.score.Some? then l.score.value else 0
  }

  /** A string field used as an object key when it is truthy: present and not "". */
  function TruthyKey(field: Option<string>): (k: Option<string>)
    ensures k.Some? <==> field.Some? && field.value != ""
    ensures k.Some? ==> k == field
  {
    if field.Some? && field.value != "" then field else None
  }
}
