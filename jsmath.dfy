/** The JavaScript number operations the application relies on, over exact reals and integers. */
module JsMath {

  /** `Math.ceil`: the least integer not below `x`. */
  function Ceil(x: real): (r: int)
    ensures r as real - 1.0 < x <= r as real
  {
    -((-x).Floor)
  }

  /** `Math.round`: the nearest integer, halves rounded up (towards +infinity). */
  function Round(x: real): (r: int)
    ensures r as real - 0.5 <= x < r as real + 0.5
  {
    (x + 0.5).Floor
  }

  /** Division truncated towards zero, `Math.trunc(a / b)`. */
  function JsQuot(a: int, b: int): int
    requires b > 0
  {
    if a >= 0 then a / b else -((-a) / b)
  }

  /** The `%` operator on numbers: the remainder keeps the sign of the dividend
      (truncated division), unlike Dafny's Euclidean `%`. */
  function JsRem(a: int, b: int): (r: int)
    requires b > 0
    ensures a == JsQuot(a, b) * b + r
    ensures a >= 0 ==> 0 <= r < b && r == a % b
    ensures a < 0 ==> -b < r <= 0
  {
    if a >= 0 then a % b
    else
      var q, m := (-a) / b, (-a) % b;
      assert -a == q * b + m;
      assert a == (-q) * b - m;
      -m
  }

  /** A multiple of `b` leaves no Euclidean remainder. */
  lemma MultipleHasNoRemainder(k: int, b: int)
    requires b > 0
    ensures (k * b) % b == 0
  {
    var d, m := (k * b) / b, (k * b) % b;
    var e := k - d;
    assert k * b == d * b + m;
    assert e * b == k * b - d * b;
    assert m == e * b;
  }
}
