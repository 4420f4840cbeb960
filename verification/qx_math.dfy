/** The clamp helper `qx_clamp_float`, which the fader calls. The header-only
    randomizer clamps only its bucket index, and `radomizer.c` writes out an
    equivalent if/else chain instead of calling it. */
module QxMath {

  /** `qx_clamp_float`: the lower bound is tested first, so `min` wins when the
      bounds are crossed and the value lies below both. */
  function Clamp(value: real, min: real, max: real): (r: real)
    ensures value < min ==> r == min
    ensures min <= value && value > max ==> r == max
    ensures min <= value <= max ==> r == value
    ensures min <= max ==> min <= r <= max
  {
    if value < min then min else if value > max then max else value
  }

  /** Clamping twice into a well-formed interval is the same as clamping once. */
  lemma ClampIdempotent(value: real, min: real, max: real)
    requires min <= max
    ensures Clamp(Clamp(value, min, max), min, max) == Clamp(value, min, max)
  {
  }

  /** With well-formed bounds, the clamp is the point of `[min, max]` nearest
      to `value`: no other point of the interval is closer. */
  lemma ClampIsNearest(value: real, min: real, max: real, y: real)
    requires min <= max
    requires min <= y <= max
    ensures Dist(Clamp(value, min, max), value) <= Dist(y, value)
  {
  }

  function Dist(a: real, b: real): (d: real)
    ensures d >= 0.0
    ensures d == 0.0 <==> a == b
  {
    if a >= b then a - b else b - a
  }

  function Min(a: real, b: real): real
  {
    if a <= b then a else b
  }

  function Max(a: real, b: real): real
  {
    if a >= b then a else b
  }
}
