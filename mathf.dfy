/** The few `Mathf` helpers the light code relies on, over exact reals.
    Float rounding is not modelled; `Mathf.Clamp(v, 0, float.MaxValue)` is
    modelled as an unbounded lower clamp (`ClampMin`). */
module Mathf {

  /** `Mathf.PI`, the single-precision value of pi. */
  const PI: real := 3.14159274

  /** `Mathf.Deg2Rad`, degrees to radians. */
  const Deg2Rad: real := PI * 2.0 / 360.0

  /** `Mathf.Max` on two values. */
  function Max(a: real, b: real): (r: real)
    ensures r >= a && r >= b
    ensures r == a || r == b
  {
    if a >= b then a else b
  }

  /** `Mathf.Abs`. */
  function Abs(x: real): (r: real)
    ensures r >= 0.0
    ensures r == x || r == -x
  {
    if x >= 0.0 then x else -x
  }

  /** `Mathf.Clamp(value, lo, hi)`: the value if it lies in [lo, hi], else the nearer bound. */
  function Clamp(value: real, lo: real, hi: real): (r: real)
    requires lo <= hi
    ensures lo <= r <= hi
    ensures lo <= value <= hi ==> r == value
    ensures r == value || r == lo || r == hi
  {
    if value < lo then lo else if value > hi then hi else value
  }

  /** `Mathf.Clamp(value, lo, float.MaxValue)` with the upper bound taken as unbounded. */
  function ClampMin(value: real, lo: real): (r: real)
    ensures r >= lo
    ensures value >= lo ==> r == value
    ensures value < lo ==> r == lo
  {
    Max(value, lo)
  }

  /** `Mathf.Clamp01`. */
  function Clamp01(value: real): (r: real)
    ensures 0.0 <= r <= 1.0
    ensures 0.0 <= value <= 1.0 ==> r == value
  {
    Clamp(value, 0.0, 1.0)
  }
}
