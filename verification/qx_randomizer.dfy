/** The header-only randomizer of `qx_randomizer.h`: a 32-bit linear
    congruential generator whose state is mapped onto `max_steps + 1` equal
    buckets of `[0, 1]`, bucket `k` producing `min + k * resolution`. */
module QxRandomizer {
  import opened CNumerics

  const LCG_A: int := 1664525
  const LCG_C: int := 1013904223

  /** The seed every freshly initialised randomizer starts from. */
  const DEFAULT_SEED: Uint32 := 856382025

  /** The cached normalisation factor `1.0f / (float)UINT32_MAX`, taken exactly. */
  const INV_MAX_UINT: real := 1.0 / (UINT32_MAX as real)

  /** A seed whose successor is `UINT32_MAX`, the seed that selects the top bucket. */
  const TOP_PREDECESSOR: Uint32 := 653637408

  /** The public record of the header: configuration, generator state, and the
      three cached values `range`, `inv_max_uint` and `max_steps`. */
  datatype Randomizer = Randomizer(
    seed: Uint32,
    min: real,
    max: real,
    resolution: real,
    range: real,
    invMaxUint: real,
    maxSteps: int)

  /** `(int)(range / resolution + 0.5f)`: the number of resolution steps in
      the range, rounded to the nearest integer with halves rounded up. */
  function StepCount(range: real, resolution: real): (n: int)
    requires resolution != 0.0
    ensures range / resolution >= -0.5 ==>
              n as real - 0.5 <= range / resolution < n as real + 0.5
    ensures range >= 0.0 && resolution > 0.0 ==> n >= 0
  {
    Trunc(range / resolution + 0.5)
  }

  /** The cached fields agree with the configuration they were computed from. */
  predicate Cached(rand: Randomizer)
  {
    && rand.resolution != 0.0
    && rand.range == rand.max - rand.min
    && rand.invMaxUint == INV_MAX_UINT
    && rand.maxSteps == StepCount(rand.range, rand.resolution)
  }

  /** The configurations the header's arithmetic is meant for. */
  predicate WellConfigured(rand: Randomizer)
  {
    Cached(rand) && rand.range >= 0.0 && rand.resolution > 0.0
  }

  /** The generator step `seed * 1664525u + 1013904223u` in `uint32_t`. */
  function NextSeed(seed: Uint32): (r: Uint32)
    ensures (seed * LCG_A + LCG_C - r) % TWO_POW_32 == 0
  {
    Wrap32(seed * LCG_A + LCG_C)
  }

  /** `qx_randomizer_init`: the fixed default seed and freshly computed caches.
      The header does not validate `resolution`; a zero one would divide by zero. */
  function Init(min: real, max: real, resolution: real): (r: Randomizer)
    requires resolution != 0.0
    ensures Cached(r)
    ensures r.seed == DEFAULT_SEED
    ensures r.min == min && r.max == max && r.resolution == resolution
  {
    Randomizer(DEFAULT_SEED, min, max, resolution, max - min, INV_MAX_UINT,
               StepCount(max - min, resolution))
  }

  /** `qx_randomizer_set_seed`: only the generator state changes. */
  function SetSeed(rand: Randomizer, seed: Uint32): (r: Randomizer)
    ensures r.seed == seed
    ensures r.(seed := rand.seed) == rand
    ensures Cached(rand) ==> Cached(r)
  {
    rand.(seed := seed)
  }

  /** `qx_randomizer_set_range`: new bounds and caches recomputed from the
      current resolution; seed and resolution are kept. */
  function SetRange(rand: Randomizer, min: real, max: real): (r: Randomizer)
    requires rand.resolution != 0.0
    ensures r.min == min && r.max == max
    ensures r.seed == rand.seed && r.resolution == rand.resolution
    ensures r.invMaxUint == rand.invMaxUint
    ensures rand.invMaxUint == INV_MAX_UINT ==> Cached(r)
  {
    rand.(min := min, max := max, range := max - min,
          maxSteps := StepCount(max - min, rand.resolution))
  }

  /** `qx_randomizer_set_resolution`: new resolution and step count; seed,
      bounds and the cached range are kept. */
  function SetResolution(rand: Randomizer, resolution: real): (r: Randomizer)
    requires resolution != 0.0
    ensures r.resolution == resolution
    ensures r.seed == rand.seed && r.min == rand.min && r.max == rand.max
    ensures r.range == rand.range && r.invMaxUint == rand.invMaxUint
    ensures Cached(rand) ==> Cached(r)
  {
    rand.(resolution := resolution, maxSteps := StepCount(rand.range, resolution))
  }

  /** `(int)(normalized * (max_steps + 1))` before the guard. */
  function RawIndex(maxSteps: int, invMaxUint: real, seed: Uint32): int
  {
    Trunc((seed as real * invMaxUint) * ((maxSteps + 1) as real))
  }

  /** The bucket a seed selects, after the guard that pulls the one-past-the-end
      bucket back to `max_steps`. */
  function BucketIndex(maxSteps: int, invMaxUint: real, seed: Uint32): (k: int)
    ensures k <= maxSteps
    ensures invMaxUint == INV_MAX_UINT && maxSteps >= 0 ==> 0 <= k
    ensures invMaxUint == INV_MAX_UINT && maxSteps >= 0 && seed == UINT32_MAX ==> k == maxSteps
    ensures invMaxUint == INV_MAX_UINT && maxSteps >= 0 && seed < UINT32_MAX ==>
              k as real <= (seed as real * invMaxUint) * ((maxSteps + 1) as real) < (k + 1) as real
  {
    var step := RawIndex(maxSteps, invMaxUint, seed);
    RawIndexRange(maxSteps, invMaxUint, seed);
    if step > maxSteps then maxSteps else step
  }

  /** The normalised seed `seed * inv_max_uint` lies in [0, 1] and is 1
      exactly for `UINT32_MAX`. */
  lemma Normalised(seed: Uint32)
    ensures 0.0 <= seed as real * INV_MAX_UINT <= 1.0
    ensures seed as real * INV_MAX_UINT == 1.0 <==> seed == UINT32_MAX
  {
    assert seed as real * INV_MAX_UINT == seed as real / UINT32_MAX as real;
  }

  lemma RawIndexRange(maxSteps: int, invMaxUint: real, seed: Uint32)
    ensures invMaxUint == INV_MAX_UINT && maxSteps >= 0 ==>
              0 <= RawIndex(maxSteps, invMaxUint, seed) <= maxSteps + 1
    ensures invMaxUint == INV_MAX_UINT && maxSteps >= 0 ==>
              (RawIndex(maxSteps, invMaxUint, seed) == maxSteps + 1 <==> seed == UINT32_MAX)
  {
    if invMaxUint == INV_MAX_UINT && maxSteps >= 0 {
      Normalised(seed);
      TruncOfFraction(seed as real * invMaxUint, maxSteps + 1);
    }
  }

  /** The guard is needed for exactly one seed: the raw bucket index runs past
      `max_steps` only when the normalised seed is exactly 1. */
  lemma GuardFiresOnlyAtTop(maxSteps: int, seed: Uint32)
    requires maxSteps >= 0
    ensures RawIndex(maxSteps, INV_MAX_UINT, seed) > maxSteps <==> seed == UINT32_MAX
  {
    RawIndexRange(maxSteps, INV_MAX_UINT, seed);
  }

  /** The value a freshly advanced seed is mapped to: `min + step * resolution`.
      For a well-configured randomizer it lies between `min` and
      `min + max_steps * resolution`, and that top is at most half a
      resolution step above `max`. */
  function Quantise(rand: Randomizer, seed: Uint32): (q: real)
    ensures q == rand.min + (BucketIndex(rand.maxSteps, rand.invMaxUint, seed) as real) * rand.resolution
    ensures WellConfigured(rand) ==>
              rand.min <= q <= rand.min + (rand.maxSteps as real) * rand.resolution
    ensures WellConfigured(rand) ==>
              rand.min + (rand.maxSteps as real) * rand.resolution <= rand.max + rand.resolution / 2.0
  {
    var k := BucketIndex(rand.maxSteps, rand.invMaxUint, seed);
    var q := rand.min + (k as real) * rand.resolution;
    if WellConfigured(rand) then
      OffsetBounds(rand.min, rand.max, rand.range, rand.resolution, rand.maxSteps, k);
      assert q <= rand.min + (rand.maxSteps as real) * rand.resolution;
      q
    else q
  }

  lemma OffsetBounds(min: real, max: real, range: real, resolution: real, maxSteps: int, k: int)
    requires resolution > 0.0 && range >= 0.0 && range == max - min
    requires maxSteps == StepCount(range, resolution) && 0 <= k <= maxSteps
    ensures min <= min + (k as real) * resolution <= min + (maxSteps as real) * resolution
    ensures min + (maxSteps as real) * resolution <= max + resolution / 2.0
  {
    BucketScales(k, maxSteps, resolution);
    TopBucketBound(range, resolution, maxSteps);
  }

  /** The rounded step count overshoots the range by at most half a step. */
  lemma TopBucketBound(range: real, resolution: real, maxSteps: int)
    requires resolution > 0.0 && range >= 0.0 && maxSteps == StepCount(range, resolution)
    ensures (maxSteps as real) * resolution <= range + resolution / 2.0
  {
    var x := range / resolution;
    var slack := x + 0.5 - maxSteps as real;
    assert slack >= 0.0;
    MulNonNegative(slack, resolution);
    assert x * resolution == range;
    assert slack * resolution == range + resolution / 2.0 - (maxSteps as real) * resolution;
  }

  /** A bucket index in `[0, max_steps]` scales to an offset in
      `[0, max_steps * resolution]`. */
  lemma BucketScales(k: int, maxSteps: int, resolution: real)
    requires 0 <= k <= maxSteps && resolution > 0.0
    ensures 0.0 <= (k as real) * resolution <= (maxSteps as real) * resolution
  {
    MulNonNegative(k as real, resolution);
    MulNonNegative((maxSteps - k) as real, resolution);
    assert (maxSteps as real) * resolution - (k as real) * resolution
           == ((maxSteps - k) as real) * resolution;
  }

  /** `qx_randomizer_get_float`: advance the generator, then quantise the new
      seed. Returns the advanced randomizer and the drawn value. */
  function GetFloat(rand: Randomizer): (r: (Randomizer, real))
    ensures r.0 == rand.(seed := NextSeed(rand.seed))
    ensures r.1 == Quantise(rand, r.0.seed)
    ensures WellConfigured(rand) ==>
              rand.min <= r.1 <= rand.min + (rand.maxSteps as real) * rand.resolution
    ensures WellConfigured(rand) ==> r.1 <= rand.max + rand.resolution / 2.0
  {
    var next := rand.(seed := NextSeed(rand.seed));
    (next, Quantise(rand, next.seed))
  }

  /** The seed after `n` generator steps. */
  function SeedN(seed: Uint32, n: nat): Uint32
    decreases n
  {
    if n == 0 then seed else SeedN(NextSeed(seed), n - 1)
  }

  /** The values of `n` successive draws. */
  function Draws(rand: Randomizer, n: nat): (r: seq<real>)
    ensures |r| == n
    decreases n
  {
    if n == 0 then [] else [GetFloat(rand).1] + Draws(GetFloat(rand).0, n - 1)
  }

  /** The randomizer after `n` successive draws. */
  function After(rand: Randomizer, n: nat): Randomizer
    decreases n
  {
    if n == 0 then rand else After(GetFloat(rand).0, n - 1)
  }

  /** The quantiser reads the configuration only, never the stored seed. */
  lemma QuantiseIgnoresSeed(rand: Randomizer, stored: Uint32, seed: Uint32)
    ensures Quantise(rand.(seed := stored), seed) == Quantise(rand, seed)
  {
  }

  /** Drawing only ever advances the seed: after `n` draws the record is the
      original with the `n`-th successor of its seed. */
  lemma {:induction false} AfterOnlyAdvancesSeed(rand: Randomizer, n: nat)
    ensures After(rand, n) == rand.(seed := SeedN(rand.seed, n))
    decreases n
  {
    if n > 0 {
      AfterOnlyAdvancesSeed(GetFloat(rand).0, n - 1);
    }
  }

  /** Draw `i` of `n` is the quantised `(i+1)`-th successor of the starting seed. */
  lemma {:induction false} DrawAt(rand: Randomizer, n: nat, i: nat)
    requires i < n
    ensures Draws(rand, n)[i] == Quantise(rand, SeedN(rand.seed, i + 1))
    decreases i
  {
    var g := GetFloat(rand).0;
    if i > 0 {
      DrawAt(g, n - 1, i - 1);
      QuantiseIgnoresSeed(rand, g.seed, SeedN(g.seed, i));
    }
  }

  /** Given the same seed, the pattern is reproducible: two randomizers with
      consistent caches that agree on bounds, resolution and seed produce the
      same draws, whatever else happened to them before. */
  lemma Reproducible(a: Randomizer, b: Randomizer, n: nat)
    requires Cached(a) && Cached(b)
    requires a.seed == b.seed && a.min == b.min && a.max == b.max && a.resolution == b.resolution
    ensures Draws(a, n) == Draws(b, n)
  {
    assert a.range == b.range;
    assert a.maxSteps == b.maxSteps;
    forall i | 0 <= i < n
      ensures Draws(a, n)[i] == Draws(b, n)[i]
    {
      DrawAt(a, n, i);
      DrawAt(b, n, i);
    }
  }

  /** Every draw of a well-configured randomizer is at least `min` and at most
      half a resolution step above `max`. */
  lemma DrawsBounded(rand: Randomizer, n: nat, i: nat)
    requires WellConfigured(rand) && i < n
    ensures rand.min <= Draws(rand, n)[i] <= rand.max + rand.resolution / 2.0
  {
    DrawAt(rand, n, i);
  }

  /** The top bucket `min + max_steps * resolution` lies within `[min, max]`
      exactly when the fractional part of `range / resolution` is below one half. */
  lemma TopWithinMaxIff(rand: Randomizer)
    requires WellConfigured(rand)
    ensures var x := rand.range / rand.resolution;
      rand.min + (rand.maxSteps as real) * rand.resolution <= rand.max
      <==> x - (x.Floor as real) < 0.5
  {
    RoundedTopIff(rand.min, rand.max, rand.resolution, rand.maxSteps);
  }

  lemma RoundedTopIff(min: real, max: real, resolution: real, steps: int)
    requires resolution > 0.0 && min <= max && steps == StepCount(max - min, resolution)
    ensures var x := (max - min) / resolution;
      min + (steps as real) * resolution <= max <==> x - (x.Floor as real) < 0.5
  {
    var x := (max - min) / resolution;
    var m := steps as real;
    var top := m * resolution;
    var whole := x * resolution;
    assert whole == max - min;
    assert x >= 0.0;
    assert min + top <= max <==> top <= whole;
    ScaleMonotone(m, x, resolution);
    assert top <= whole <==> m <= x;
    RoundsDownIff(x);
    assert m == Trunc(x + 0.5) as real;
  }

  /** Re-seeding with `TOP_PREDECESSOR` makes the next draw the top bucket. */
  lemma TopIsDrawn(rand: Randomizer)
    requires rand.invMaxUint == INV_MAX_UINT && rand.maxSteps >= 0
    ensures GetFloat(SetSeed(rand, TOP_PREDECESSOR)).1
            == rand.min + (rand.maxSteps as real) * rand.resolution
  {
    TopPredecessorWraps();
    var r := SetSeed(rand, TOP_PREDECESSOR);
    assert GetFloat(r).1 == Quantise(r, UINT32_MAX);
    assert BucketIndex(rand.maxSteps, rand.invMaxUint, UINT32_MAX) == rand.maxSteps;
  }

  /** One generator step takes `TOP_PREDECESSOR` to `UINT32_MAX`. */
  lemma TopPredecessorWraps()
    ensures NextSeed(TOP_PREDECESSOR) == UINT32_MAX
  {
    assert TOP_PREDECESSOR * LCG_A + LCG_C == 253318 * TWO_POW_32 + UINT32_MAX;
  }

  /** Range 1 at resolution 0.4 is 2.5 steps, which the step count rounds up to 3. */
  lemma HalfStepRoundsUp()
    ensures Init(0.0, 1.0, 0.4).maxSteps == 3
  {
    assert 1.0 / 0.4 + 0.5 == 3.0;
    assert Trunc(3.0) == 3;
  }

  lemma TopDrawAtThreeSteps(rand: Randomizer)
    requires rand.invMaxUint == INV_MAX_UINT && rand.maxSteps == 3
    requires rand.min == 0.0 && rand.resolution == 0.4
    ensures GetFloat(SetSeed(rand, TOP_PREDECESSOR)).1 == 1.2
  {
    TopIsDrawn(rand);
  }

  /** With range 1 and resolution 0.4 the top draw is 1.2, above `max`. */
  lemma TopDrawExceedsMax()
    ensures var rand := SetSeed(Init(0.0, 1.0, 0.4), TOP_PREDECESSOR);
      GetFloat(rand).1 == 1.2 > rand.max
  {
    HalfStepRoundsUp();
    TopDrawAtThreeSteps(Init(0.0, 1.0, 0.4));
  }

  /** The step count that keeps the top bucket inside the range: the number
      of whole resolution steps that fit in it. */
  function CorrectedStepCount(range: real, resolution: real): (n: int)
    requires resolution != 0.0
    ensures range >= 0.0 && resolution > 0.0 ==>
              0 <= n && (n as real) * resolution <= range < ((n + 1) as real) * resolution
  {
    var n := Trunc(range / resolution);
    WholeStepsFit(range, resolution, n);
    n
  }

  lemma WholeStepsFit(range: real, resolution: real, n: int)
    requires resolution != 0.0 && n == Trunc(range / resolution)
    ensures range >= 0.0 && resolution > 0.0 ==>
              0 <= n && (n as real) * resolution <= range < ((n + 1) as real) * resolution
  {
    if range >= 0.0 && resolution > 0.0 {
      var x := range / resolution;
      assert x * resolution == range;
      assert n as real <= x < (n + 1) as real;
      assert (x - n as real) * resolution >= 0.0;
      var hi := (n + 1) as real;
      assert (hi - x) * resolution > 0.0;
      assert hi * resolution - x * resolution == (hi - x) * resolution;
      assert range < hi * resolution;
      assert (n as real) * resolution <= range;
    }
  }

  /** `qx_randomizer_init` with the corrected step count. */
  function CorrectedInit(min: real, max: real, resolution: real): (r: Randomizer)
    requires resolution != 0.0
    ensures r.seed == DEFAULT_SEED
    ensures r.min == min && r.max == max && r.resolution == resolution
    ensures r.range == max - min && r.invMaxUint == INV_MAX_UINT
    ensures r.maxSteps == CorrectedStepCount(max - min, resolution)
    ensures min <= max && resolution > 0.0 ==>
              r.min + (r.maxSteps as real) * r.resolution <= r.max
  {
    var n := CorrectedStepCount(max - min, resolution);
    assert min <= max && resolution > 0.0 ==> min + (n as real) * resolution <= max;
    Randomizer(DEFAULT_SEED, min, max, resolution, max - min, INV_MAX_UINT, n)
  }

  /** `qx_randomizer_set_range` with the corrected step count. */
  function CorrectedSetRange(rand: Randomizer, min: real, max: real): (r: Randomizer)
    requires rand.resolution != 0.0
    ensures r.min == min && r.max == max && r.range == max - min
    ensures r.seed == rand.seed && r.resolution == rand.resolution
    ensures r.invMaxUint == rand.invMaxUint
    ensures r.maxSteps == CorrectedStepCount(max - min, rand.resolution)
    ensures min <= max && rand.resolution > 0.0 ==>
              r.min + (r.maxSteps as real) * r.resolution <= r.max
  {
    var n := CorrectedStepCount(max - min, rand.resolution);
    assert min <= max && rand.resolution > 0.0 ==> min + (n as real) * rand.resolution <= max;
    rand.(min := min, max := max, range := max - min, maxSteps := n)
  }

  /** `qx_randomizer_set_resolution` with the corrected step count. */
  function CorrectedSetResolution(rand: Randomizer, resolution: real): (r: Randomizer)
    requires resolution != 0.0
    ensures r.resolution == resolution
    ensures r.seed == rand.seed && r.min == rand.min && r.max == rand.max
    ensures r.range == rand.range && r.invMaxUint == rand.invMaxUint
    ensures r.maxSteps == CorrectedStepCount(rand.range, resolution)
    ensures rand.range == rand.max - rand.min && rand.range >= 0.0 && resolution > 0.0 ==>
              r.min + (r.maxSteps as real) * r.resolution <= r.max
  {
    var n := CorrectedStepCount(rand.range, resolution);
    assert rand.range >= 0.0 && resolution > 0.0 ==> (n as real) * resolution <= rand.range;
    rand.(resolution := resolution, maxSteps := n)
  }

  /** With the corrected step count every draw lies in `[min, max]`, as the
      header's documentation promises. */
  lemma CorrectedDrawInRange(min: real, max: real, resolution: real, seed: Uint32)
    requires min <= max && resolution > 0.0
    ensures var rand := SetSeed(CorrectedInit(min, max, resolution), seed);
      min <= GetFloat(rand).1 <= max
  {
    var rand := SetSeed(CorrectedInit(min, max, resolution), seed);
    assert rand.min + (rand.maxSteps as real) * rand.resolution <= rand.max;
    TopInRangeQuantise(rand, NextSeed(seed));
  }

  /** When the top bucket lies within `[min, max]`, so does every bucket. */
  lemma TopInRangeQuantise(rand: Randomizer, seed: Uint32)
    requires rand.invMaxUint == INV_MAX_UINT && rand.maxSteps >= 0 && rand.resolution > 0.0
    requires rand.min + (rand.maxSteps as real) * rand.resolution <= rand.max
    ensures rand.min <= Quantise(rand, seed) <= rand.max
  {
    var k := BucketIndex(rand.maxSteps, rand.invMaxUint, seed);
    BucketScales(k, rand.maxSteps, rand.resolution);
  }
}
