/** The colour coding of a reading on the dashboard and in the history (`getValueClass`). */
module ValueClass {
  import opened Wrappers

  datatype Class = NoClass | Ok | Warning | Danger

  /** The CSS class name the page uses for each class. */
  function CssName(c: Class): string {
    match c
    case NoClass => ""
    case Ok => "value-ok"
    case Warning => "value-warning"
    case Danger => "value-danger"
  }

  /** No two classes share a CSS class name. */
  lemma CssNameInjective(c: Class, d: Class)
    ensures CssName(c) == CssName(d) ==> c == d
  {
  }

  /** Width of the warning band on each side of the ideal range. */
  const Tolerance: real := 0.5

  /** Classify a reading (absent or NaN is `None`) against the ideal range [min, max]. */
  function Classify(value: Option<real>, min: real, max: real): (c: Class)
    ensures c == NoClass <==> value.None?
    ensures c == Ok <==> value.Some? && min <= value.value <= max
    ensures c == Danger <==> value.Some? && (value.value < min - Tolerance || value.value > max + Tolerance)
    ensures c == Warning ==>
      (min - Tolerance <= value.value < min) || (max < value.value <= max + Tolerance)
  {
    match value
    case None => NoClass
    case Some(v) =>
      if v >= min && v <= max then Ok
      else if v < min - Tolerance || v > max + Tolerance then Danger
      else Warning
  }

  /** How far `v` lies outside [min, max]. */
  function Distance(v: real, min: real, max: real): real {
    if v < min then min - v else if v > max then v - max else 0.0
  }

  /** The classification is a function of the distance to the ideal range alone. */
  lemma ClassByDistance(v: real, min: real, max: real)
    requires min <= max
    ensures Classify(Some(v), min, max) == Ok <==> Distance(v, min, max) == 0.0
    ensures Classify(Some(v), min, max) == Warning <==> 0.0 < Distance(v, min, max) <= Tolerance
    ensures Classify(Some(v), min, max) == Danger <==> Distance(v, min, max) > Tolerance
  {
  }
}
