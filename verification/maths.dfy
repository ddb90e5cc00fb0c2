/** The few pieces of Python's `math` module and numeric built-ins the curve pipeline uses. */
module Maths {

  /** Python's `math.pi`, read as the exact decimal it prints as. */
  const Pi: real := 3.141592653589793

  /**
   * Sine and cosine, supplied by the caller. Nothing about real trigonometry is
   * modelled; the only facts the model ever relies on are their values at 0.
   */
  datatype Trig = Trig(sin: real -> real, cos: real -> real)

  /** The trigonometric functions are exact at angle 0. */
  predicate ExactAtZero(t: Trig) {
    t.sin(0.0) == 0.0 && t.cos(0.0) == 1.0
  }

  /** Python's `max` on two floats. */
  function Max(a: real, b: real): (m: real)
    ensures m >= a && m >= b
    ensures m == a || m == b
  {
    if b > a then b else a
  }

  /** Python's `int()` applied to a float: rounds toward zero. */
  function Trunc(x: real): (n: int)
    ensures 0.0 <= x ==> n as real <= x < n as real + 1.0
    ensures x < 0.0 ==> n as real - 1.0 < x <= n as real
  {
    if x >= 0.0 then x.Floor else -((-x).Floor)
  }

  /** On non-negative arguments truncation and flooring agree. */
  lemma TruncIsFloor(x: real)
    requires 0.0 <= x
    ensures Trunc(x) == x.Floor
  {
  }
}
