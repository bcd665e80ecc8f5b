/** The dynamically typed values the backend reads out of its dictionaries
    (leads, weights), with Python's truthiness, `d.get`, `a or b`, `str()` and
    `int()` as the scorer uses them. Python's `int` and `float` are both `Num`. */
module PyValues {
  import opened Options
  import PyNumbers

  datatype Value =
    | Null                 // None
    | Bool(b: bool)
    | Num(x: real)         // a finite int or float
    | NonFinite            // float('inf'), float('-inf') or float('nan')
    | Str(s: string)

  /** A Python dict with string keys; a missing key is a key not in the map. */
  type Dict = map<string, Value>

  /** `d.get(k)`: `None` for a missing key. */
  function Get(d: Dict, k: string): (v: Value)
    ensures k !in d ==> v == Null
    ensures k in d ==> v == d[k]
  {
    if k in d then d[k] else Null
  }

  /** `d.get(k, dflt)`: the default only for a missing key, not for a present `None`. */
  function GetOr(d: Dict, k: string, dflt: Value): (v: Value)
    ensures k !in d ==> v == dflt
    ensures k in d ==> v == d[k]
  {
    if k in d then d[k] else dflt
  }

  /** Python's `bool(v)`: None, False, zero and "" are false; NaN and inf are true. */
  predicate Truthy(v: Value)
    ensures !Truthy(v) <==> v == Null || v == Bool(false) || v == Num(0.0) || v == Str("")
  {
    match v
    case Null => false
    case Bool(b) => b
    case Num(x) => x != 0.0
    case NonFinite => true
    case Str(s) => s != ""
  }

  /** `a or b`: `a` when it is truthy, otherwise `b`. */
  function Or(a: Value, b: Value): (r: Value)
    ensures Truthy(a) ==> r == a
    ensures !Truthy(a) ==> r == b
  {
    if Truthy(a) then a else b
  }

  /** `str(v)` for the values whose text the model renders; numbers give `None`
      (their Python text form is not modelled). */
  function StrOf(v: Value): (r: Option<string>)
    ensures r.None? <==> v.Num? || v.NonFinite?
    ensures v.Str? ==> r == Some(v.s)
    ensures v.Null? ==> r == Some("None")
  {
    match v
    case Null => Some("None")
    case Bool(b) => Some(if b then "True" else "False")
    case Str(s) => Some(s)
    case Num(_) => None
    case NonFinite => None
  }

  /** `int(v)`: truncation for numbers, `int()` parsing for strings; `None` is
      the `TypeError`, `ValueError` or `OverflowError` Python raises. */
  function ToInt(v: Value): (r: Option<int>)
    ensures v.Null? || v.NonFinite? ==> r.None?
    ensures v.Num? ==> r == Some(PyNumbers.Trunc(v.x))
    ensures v.Str? ==> r == PyNumbers.ParseInt(v.s)
  {
    match v
    case Null => None
    case Bool(b) => Some(if b then 1 else 0)
    case Num(x) => Some(PyNumbers.Trunc(x))
    case NonFinite => None
    case Str(s) => PyNumbers.ParseInt(s)
  }
}
