/** Plain real arithmetic shared by the input controllers. */
module Maths {

  /** The absolute value, `Math.abs`. */
  function Abs(x: real): (r: real)
    ensures 0.0 <= r && (r == x || r == -x)
  {
    if x < 0.0 then -x else x
  }
}
