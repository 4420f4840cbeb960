/** The opaque-handle randomizer declared in `radomizer.h` and implemented in
    `radomizer.c`: the same 32-bit linear congruential generator, but the new
    seed is scaled onto `[min, max]`, rounded to the nearest multiple of
    `resolution` above `min`, and clamped back into `[min, max]`. */
module OpaqueRandomizer {
  import opened CNumerics
  import opened QxMath

  const LCG_A: int := 1664525
  const LCG_C: int := 1013904223

  /** The mask applied to every new seed. */
  const LCG_M: int := 0xFFFF_FFFF

  /** The fixed seed `init` resets every instance to. */
  const DEFAULT_SEED: Uint32 := 0x1234_5678

  /** The hidden state behind the handle. */
  datatype Randomizer = Randomizer(min: real, max: real, resolution: real, seed: Uint32)

  /** `qx_randomizer_next_seed`: `(LCG_A * seed + LCG_C) & LCG_M` in
      `uint32_t`; the mask keeps every bit of a 32-bit value. */
  function NextSeed(seed: Uint32): (r: Uint32)
    ensures r == Wrap32(LCG_A * seed + LCG_C)
  {
    MaskIsIdentity(Wrap32(LCG_A * seed + LCG_C));
    BitAnd(Wrap32(LCG_A * seed + LCG_C), LCG_M)
  }

  /** `qx_randomizer_init`: store the bounds, replace a non-positive
      resolution by 1, and reset the seed to the fixed default. */
  function Init(min: real, max: real, resolution: real): (r: Randomizer)
    ensures r.min == min && r.max == max
    ensures r.seed == DEFAULT_SEED
    ensures r.resolution > 0.0
    ensures resolution > 0.0 ==> r.resolution == resolution
    ensures resolution <= 0.0 ==> r.resolution == 1.0
  {
    Randomizer(min, max, if resolution <= 0.0 then 1.0 else resolution, DEFAULT_SEED)
  }

  /** `qx_randomizer_set_seed`: only the generator state changes. */
  function SetSeed(rand: Randomizer, seed: Uint32): (r: Randomizer)
    ensures r.seed == seed
    ensures r.(seed := rand.seed) == rand
  {
    rand.(seed := seed)
  }

  /** `(int)(steps + 0.5f)` for the seed scaled onto `[min, max]`: the
      number of resolution steps above `min`, rounded to the nearest integer. */
  function RoundedIndex(min: real, max: real, resolution: real, seed: Uint32): (k: int)
    requires resolution > 0.0
    ensures min <= max ==> 0 <= k
    ensures min <= max ==>
              var y := (seed as real / UINT32_MAX as real) * (max - min) / resolution;
              k as real - 0.5 <= y < k as real + 0.5
  {
    var normalized := seed as real / UINT32_MAX as real;
    var range := max - min;
    var value := min + normalized * range;
    var steps := (value - min) / resolution;
    StepsFromMin(min, normalized, range, resolution);
    assert steps == (seed as real / UINT32_MAX as real) * (max - min) / resolution;
    var k := Trunc(steps + 0.5);
    assert min <= max ==> k as real <= steps + 0.5 < k as real + 1.0;
    k
  }

  lemma StepsFromMin(min: real, normalized: real, range: real, resolution: real)
    requires resolution > 0.0
    ensures ((min + normalized * range) - min) / resolution == normalized * range / resolution
    ensures 0.0 <= normalized && 0.0 <= range ==> normalized * range / resolution >= 0.0
  {
    assert (min + normalized * range) - min == normalized * range;
    if 0.0 <= normalized && 0.0 <= range {
      assert normalized * range >= 0.0;
    }
  }

  /** `quantized_value` before the clamp: `min + steps_int * resolution`. */
  function Unclamped(min: real, max: real, resolution: real, seed: Uint32): real
    requires resolution > 0.0
  {
    min + (RoundedIndex(min, max, resolution, seed) as real) * resolution
  }

  /** With ordered bounds the unclamped value is never below `min`, so the
      lower branch of the clamp never fires. */
  lemma UnclampedAboveMin(min: real, max: real, resolution: real, seed: Uint32)
    requires resolution > 0.0
    ensures min <= max ==> min <= Unclamped(min, max, resolution, seed)
  {
    if min <= max {
      assert (RoundedIndex(min, max, resolution, seed) as real) * resolution >= 0.0;
    }
  }

  /** The value a fresh seed is mapped to, from the configuration alone. */
  function DrawFor(rand: Randomizer, seed: Uint32): real
    requires rand.resolution > 0.0
  {
    Clamp(Unclamped(rand.min, rand.max, rand.resolution, seed), rand.min, rand.max)
  }

  /** `qx_randomizer_get_float`: advance the generator, quantise the new seed,
      and clamp the result. Returns the advanced state and the drawn value. */
  function GetFloat(rand: Randomizer): (r: (Randomizer, real))
    requires rand.resolution > 0.0
    ensures r.0 == rand.(seed := NextSeed(rand.seed))
    ensures r.1 == DrawFor(rand, r.0.seed)
    ensures rand.min <= rand.max ==> rand.min <= r.1 <= rand.max
    ensures rand.min <= rand.max ==>
              r.1 == Unclamped(rand.min, rand.max, rand.resolution, r.0.seed) || r.1 == rand.max
  {
    var next := rand.(seed := NextSeed(rand.seed));
    var quantized := Unclamped(rand.min, rand.max, rand.resolution, next.seed);
    UnclampedAboveMin(rand.min, rand.max, rand.resolution, next.seed);
    var value :=
      if quantized < rand.min then rand.min
      else if quantized > rand.max then rand.max
      else quantized;
    (next, value)
  }

  /** The seed after `n` generator steps. */
  function SeedN(seed: Uint32, n: nat): Uint32
    decreases n
  {
    if n == 0 then seed else SeedN(NextSeed(seed), n - 1)
  }

  /** The values of `n` successive draws. */
  function Draws(rand: Randomizer, n: nat): (r: seq<real>)
    requires rand.resolution > 0.0
    ensures |r| == n
    decreases n
  {
    if n == 0 then [] else [GetFloat(rand).1] + Draws(GetFloat(rand).0, n - 1)
  }

  /** The state after `n` successive draws. */
  function After(rand: Randomizer, n: nat): Randomizer
    requires rand.resolution > 0.0
    decreases n
  {
    if n == 0 then rand else After(GetFloat(rand).0, n - 1)
  }

  /** Drawing only ever advances the seed: bounds and resolution stay as
      `init` left them. */
  lemma {:induction false} AfterOnlyAdvancesSeed(rand: Randomizer, n: nat)
    requires rand.resolution > 0.0
    ensures After(rand, n) == rand.(seed := SeedN(rand.seed, n))
    decreases n
  {
    if n > 0 {
      AfterOnlyAdvancesSeed(GetFloat(rand).0, n - 1);
    }
  }

  lemma DrawForIgnoresSeed(rand: Randomizer, stored: Uint32, seed: Uint32)
    requires rand.resolution > 0.0
    ensures DrawFor(rand.(seed := stored), seed) == DrawFor(rand, seed)
  {
  }

  /** Draw `i` of `n` is the clamped quantisation of the `(i+1)`-th successor
      of the starting seed. */
  lemma {:induction false} DrawAt(rand: Randomizer, n: nat, i: nat)
    requires rand.resolution > 0.0 && i < n
    ensures Draws(rand, n)[i] == DrawFor(rand, SeedN(rand.seed, i + 1))
    decreases i
  {
    var g := GetFloat(rand).0;
    if i > 0 {
      DrawAt(g, n - 1, i - 1);
      DrawForIgnoresSeed(rand, g.seed, SeedN(g.seed, i));
    }
  }

  /** The same seed reproduces the same pattern: two instances that agree on
      bounds, resolution and seed produce the same draws, and nothing shared
      between instances enters the result. */
  lemma Reproducible(a: Randomizer, b: Randomizer, n: nat)
    requires a.resolution > 0.0
    requires a.seed == b.seed && a.min == b.min && a.max == b.max && a.resolution == b.resolution
    ensures Draws(a, n) == Draws(b, n)
  {
    forall i | 0 <= i < n
      ensures Draws(a, n)[i] == Draws(b, n)[i]
    {
      DrawAt(a, n, i);
      DrawAt(b, n, i);
    }
  }

  /** Every draw from an instance with ordered bounds lies in `[min, max]`. */
  lemma DrawsInRange(rand: Randomizer, n: nat, i: nat)
    requires rand.resolution > 0.0 && rand.min <= rand.max && i < n
    ensures rand.min <= Draws(rand, n)[i] <= rand.max
  {
    DrawAt(rand, n, i);
  }
}
