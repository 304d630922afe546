/** Small helpers on real numbers shared by the controller's components. */
module Reals {

  /** Absolute value, as Python's `abs` on a float. */
  function Abs(x: real): (r: real)
    ensures 0.0 <= r && (r == x || r == -x)
  {
    if x < 0.0 then -x else x
  }

  /** The smaller of two values, as Python's `min`. */
  function Min(x: real, y: real): (r: real)
    ensures r <= x && r <= y && (r == x || r == y)
  {
    if y < x then y else x
  }
}
