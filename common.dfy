/** Small value helpers shared by every component of the dashboard model. */
module Common {

  /** A value that may be absent: a missing marker, a NaN, a route not yet drawn. */
  datatype Option<+T> = None | Some(value: T)

  /** `Math.min` on two numbers. */
  function MinReal(a: real, b: real): (r: real)
    ensures r <= a && r <= b
    ensures r == a || r == b
  {
    if a <= b then a else b
  }

  /** `Math.max` on two numbers. */
  function MaxReal(a: real, b: real): (r: real)
    ensures r >= a && r >= b
    ensures r == a || r == b
  {
    if a >= b then a else b
  }

  /** `Math.abs`. */
  function AbsReal(a: real): (r: real)
    ensures r >= 0.0
    ensures r == a || r == -a
  {
    if a < 0.0 then -a else a
  }
}
