/** The two randomizer variants side by side: they share the generator but
    not the default seed or the quantiser, and they part ways at the top of
    the range. */
module RandomizerVariants {
  import opened CNumerics
  import Q = QxRandomizer
  import O = OpaqueRandomizer

  /** The masked step of `radomizer.c` is the wrapping step of `qx_randomizer.h`. */
  lemma SameGenerator(seed: Uint32)
    ensures O.NextSeed(seed) == Q.NextSeed(seed)
  {
    assert O.LCG_A * seed + O.LCG_C == seed * Q.LCG_A + Q.LCG_C;
  }

  /** Hence both variants walk the same seed sequence from the same seed. */
  lemma {:induction false} SameSeedSequence(seed: Uint32, n: nat)
    ensures O.SeedN(seed, n) == Q.SeedN(seed, n)
    decreases n
  {
    if n > 0 {
      SameGenerator(seed);
      SameSeedSequence(O.NextSeed(seed), n - 1);
    }
  }

  /** The top seed scaled onto range 1 at resolution 0.4 is 2.5 steps,
      which rounds up to 3. */
  lemma TopRoundsToThree()
    ensures O.RoundedIndex(0.0, 1.0, 0.4, UINT32_MAX) == 3
  {
    assert (UINT32_MAX as real / UINT32_MAX as real) * (1.0 - 0.0) / 0.4 == 2.5;
  }

  /** In the opaque variant, range 1 at resolution 0.4 scaled from the top
      seed rounds 2.5 steps up to 3, giving 1.2 before the clamp and `max`
      after it; `max` is not a whole number of steps above `min`. */
  lemma OpaqueTopIsClamped()
    ensures var rand := O.SetSeed(O.Init(0.0, 1.0, 0.4), Q.TOP_PREDECESSOR);
      && O.Unclamped(0.0, 1.0, 0.4, O.NextSeed(Q.TOP_PREDECESSOR)) == 1.2
      && O.GetFloat(rand).1 == 1.0
  {
    SameGenerator(Q.TOP_PREDECESSOR);
    assert O.NextSeed(Q.TOP_PREDECESSOR) == UINT32_MAX;
    TopRoundsToThree();
    assert O.Unclamped(0.0, 1.0, 0.4, UINT32_MAX) == 1.2;
  }

  /** From the same configuration and seed, the bucket variant draws 1.2,
      above `max`, while the round-and-clamp variant draws `max` itself. */
  lemma VariantsDisagreeAtTop()
    ensures Q.GetFloat(Q.SetSeed(Q.Init(0.0, 1.0, 0.4), Q.TOP_PREDECESSOR)).1 == 1.2
    ensures O.GetFloat(O.SetSeed(O.Init(0.0, 1.0, 0.4), Q.TOP_PREDECESSOR)).1 == 1.0
  {
    Q.TopDrawExceedsMax();
    OpaqueTopIsClamped();
  }
}
