/** The few pieces of C arithmetic the DSP headers rely on, stated exactly:
    unsigned 32-bit wrap-around, the `(int)` cast of a float (truncation
    toward zero), and bitwise AND on non-negative integers. */
module CNumerics {

  /** The largest value of a C `uint32_t` (`UINT32_MAX`). */
  const UINT32_MAX: int := 0xFFFF_FFFF

  /** 2^32, the modulus of `uint32_t` arithmetic. */
  const TWO_POW_32: int := 0x1_0000_0000

  /** The values of a C `uint32_t`. */
  type Uint32 = x: int | 0 <= x < 0x1_0000_0000

  /** The value a C `uint32_t` holds after an arithmetic result `x` is stored in it. */
  function Wrap32(x: int): (r: Uint32)
    ensures (x - r) % TWO_POW_32 == 0
    ensures 0 <= x < TWO_POW_32 ==> r == x
  {
    x % TWO_POW_32
  }

  /** The C conversion `(int)x` of a floating-point value: truncation toward zero. */
  function Trunc(x: real): (r: int)
    ensures x >= 0.0 ==> 0 <= r && r as real <= x < r as real + 1.0
    ensures x < 0.0 ==> r <= 0 && r as real - 1.0 < x <= r as real
  {
    if x >= 0.0 then x.Floor else -((-x).Floor)
  }

  /** The smallest integer not below `x`. */
  function Ceil(x: real): (r: int)
    ensures r as real - 1.0 < x <= r as real
  {
    -((-x).Floor)
  }

  function Pow2(n: nat): (r: nat)
    ensures r >= 1
  {
    if n == 0 then 1 else 2 * Pow2(n - 1)
  }

  /** Bitwise AND of two non-negative integers, one bit at a time from the bottom. */
  function BitAnd(a: nat, b: nat): (r: nat)
    ensures r <= a && r <= b
    decreases a
  {
    if a == 0 || b == 0 then 0
    else 2 * BitAnd(a / 2, b / 2) + (a % 2) * (b % 2)
  }

  /** AND with a mask of `n` one-bits leaves every value below 2^n unchanged. */
  lemma {:induction false} BitAndLowOnes(x: nat, n: nat)
    requires x < Pow2(n)
    ensures BitAnd(x, Pow2(n) - 1) == x
  {
    if n == 0 {
      assert x == 0;
    } else if x == 0 {
    } else {
      var m := Pow2(n) - 1;
      assert m / 2 == Pow2(n - 1) - 1;
      assert m % 2 == 1;
      assert x / 2 < Pow2(n - 1);
      BitAndLowOnes(x / 2, n - 1);
      assert BitAnd(x, m) == 2 * (x / 2) + x % 2;
    }
  }

  lemma {:induction false} Pow2Add(a: nat, b: nat)
    ensures Pow2(a + b) == Pow2(a) * Pow2(b)
    decreases a
  {
    if a > 0 {
      Pow2Add(a - 1, b);
    }
  }

  lemma Pow2Of32()
    ensures Pow2(32) == TWO_POW_32
  {
    assert Pow2(4) == 16;
    Pow2Add(4, 4);
    Pow2Add(8, 8);
    Pow2Add(16, 16);
  }

  /** `x & 0xFFFFFFFF` is the identity on every `uint32_t` value. */
  lemma MaskIsIdentity(x: Uint32)
    ensures BitAnd(x, UINT32_MAX) == x
  {
    Pow2Of32();
    BitAndLowOnes(x, 32);
  }

  /** Scaling by a positive factor preserves order, in both directions. */
  lemma ScaleMonotone(a: real, b: real, factor: real)
    requires factor > 0.0
    ensures a * factor <= b * factor <==> a <= b
  {
    assert b * factor - a * factor == (b - a) * factor;
    if a <= b {
      assert (b - a) * factor >= 0.0;
    } else {
      assert (b - a) * factor < 0.0;
    }
  }

  /** Rounding half up with `(int)(x + 0.5)` rounds a non-negative `x` down
      exactly when its fractional part is below one half. */
  lemma RoundsDownIff(x: real)
    requires x >= 0.0
    ensures Trunc(x + 0.5) as real <= x <==> x - (x.Floor as real) < 0.5
  {
    var f := x.Floor;
    if x - (f as real) < 0.5 {
      assert (f as real) <= x + 0.5 < (f + 1) as real;
      assert Trunc(x + 0.5) == f;
    } else {
      assert ((f + 1) as real) <= x + 0.5 < (f + 2) as real;
      assert Trunc(x + 0.5) == f + 1;
    }
  }

  /** Scaling a fraction in [0, 1] onto `m` whole units and truncating gives
      a unit index in [0, m], equal to `m` only for the fraction 1. */
  lemma TruncOfFraction(n: real, m: int)
    requires 0.0 <= n <= 1.0 && m >= 1
    ensures 0 <= Trunc(n * m as real) <= m
    ensures Trunc(n * m as real) == m <==> n == 1.0
  {
    var mr := m as real;
    assert mr - n * mr == (1.0 - n) * mr;
    MulNonNegative(n, mr);
    MulNonNegative(1.0 - n, mr);
    if n < 1.0 {
      MulPositive(1.0 - n, mr);
    } else {
      assert n * mr == mr;
    }
  }

  lemma MulNonNegative(a: real, b: real)
    requires a >= 0.0 && b >= 0.0
    ensures a * b >= 0.0
  {
  }

  lemma MulPositive(a: real, b: real)
    requires a > 0.0 && b > 0.0
    ensures a * b > 0.0
  {
  }
}
