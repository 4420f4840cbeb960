# Quamplex DSP Tools: per-sample primitives in Dafny

A model of the per-sample primitives of the Quamplex DSP Tools C library, with proofs about them:

- the clamp helper `qx_clamp_float` (module `QxMath`);
- the linear fader `qx_fader`, a gain in [0, 1] that ramps toward 1 (enabled) or 0 (disabled) by a fixed step per sample (module `QxFader`);
- the frame smoother `qx_smoother`, which walks `current` toward `target` in `frames` equal steps and snaps onto `target` instead of overshooting it (module `QxSmoother`);
- the quantised pseudo-random generator, in its two mutually exclusive variants:
  - the header-only one in `qx_randomizer.h` (module `QxRandomizer`). It maps each new seed to one of `max_steps + 1` buckets and yields `min + k * resolution`;
  - the opaque-handle one in `radomizer.h` / `radomizer.c` (module `OpaqueRandomizer`). It rounds to the nearest resolution step and clamps into `[min, max]`.
  The two variants are kept apart. `RandomizerVariants` only states how they relate.

Each C struct is an immutable datatype. Each function that mutates a struct through a pointer becomes a pure function that returns the new value. Where the C function also returns a value, the Dafny function returns a pair. Every `float` is a `real`, so the arithmetic is exact. The C `(int)` cast is `CNumerics.Trunc`, which truncates toward zero for both signs. A `uint32_t` is an integer in `[0, 2^32)`, and its wrap-around is written out with `CNumerics.Wrap32`. The `& 0xFFFFFFFF` of `radomizer.c` is a real bitwise AND (`CNumerics.BitAnd`), proved to be the identity on 32-bit values.

Repeated calls are modelled by `AdvanceN` (fader), `NextN` (smoother), and `SeedN` / `Draws` / `After` (randomizers). The lemmas about these iterations carry the main properties:

- the fader reaches its target gain exactly at sample `ceil(1/step)` and holds it;
- the smoother lands on its target exactly at call `frames`;
- a randomizer's draw sequence is fixed by its configuration and seed;
- only the seed changes as a randomizer draws.

Points where the code's behaviour is easy to misread:

- The header-only randomizer does not validate `resolution` (qx_randomizer.h:73-85). Only `radomizer.c` replaces a non-positive resolution by 1, as radomizer.h:61-62 describes.
- `max_steps` is computed as `(int)(range / resolution + 0.5f)`, which rounds halves up.
- The fader step is `1 / ((fadeTime / 1000) * sampleRate)`, which over the reals equals `1000 / (fadeTime * sampleRate)`.
- The doc comment at qx_randomizer.h:142 promises a value in `[min, max]`. The header-only variant breaks that promise (see Findings). The opaque variant keeps the same promise, made at radomizer.h:75.
- In the opaque variant the upper clamp can return `max` itself. When `range / resolution` is not a whole number, `max` is not a whole number of steps above `min` (`RandomizerVariants.OpaqueTopIsClamped`).

## Model

| member | source | states |
|---|---|---|
| `QxMath.Clamp` | qx_math.h:48-51 | The lower bound is tested first. Below `min` gives `min`, even when the bounds are crossed. Above `max` and not below `min` gives `max`. Otherwise the value is unchanged. With `min <= max` the result lies in `[min, max]`. |
| `QxMath.ClampIdempotent` | qx_math.h:48-51 | With `min <= max`, clamping twice equals clamping once. |
| `QxMath.ClampIsNearest` | qx_math.h:37-51 | With `min <= max`, the clamp is the point of `[min, max]` nearest to the value. This is an independent description of "not lower than min, not greater than max". |
| `QxFader.Init` | qx_fader.h:62-71 | The fader starts silent and disabled. A non-positive fade time gives step 1. Otherwise step times the fade length in samples (`fadeTime/1000 * sampleRate`) is exactly 1. The step is positive when both arguments are. |
| `QxFader.Enable` | qx_fader.h:82-86 | Sets the direction and keeps the step. Enabling snaps the gain to 0. Disabling snaps it to 1. |
| `QxFader.Advance` | qx_fader.h:98-103 | After one sample the gain is in [0, 1] whatever it was before. Step and direction are unchanged. With a non-negative step and a gain in [0, 1], the gain never moves against the direction. |
| `QxFader.Fade` | qx_fader.h:98-103 | The output is the input times the updated gain, which lies in [0, 1]. So the output's magnitude never exceeds the input's. |
| `QxFader.FadeInTrajectory` | qx_fader.h:100-101 | Enabled, from a gain in [0, 1] with step >= 0: after `k` samples the gain is `min(1, gain + k*step)`. Nothing else changes. |
| `QxFader.FadeOutTrajectory` | qx_fader.h:100-101 | Disabled, from a gain in [0, 1] with step >= 0: after `k` samples the gain is `max(0, gain - k*step)`. Nothing else changes. |
| `QxFader.FadeMonotone` | qx_fader.h:100-101 | With step >= 0, the gain is non-decreasing over calls while enabled and non-increasing while disabled. |
| `QxFader.FadeInReachesFull` | qx_fader.h:84-101 | After enabling with step > 0, the gain is exactly 1 precisely from sample `ceil(1/step)` on. It gets there within that many samples and then holds. |
| `QxFader.FadeOutReachesSilence` | qx_fader.h:84-101 | After disabling with step > 0, the gain is exactly 0 precisely from sample `ceil(1/step)` on. |
| `QxFader.InstantFade` | qx_fader.h:67-68 | With a zero fade time, the first sample after enabling passes at full gain. |
| `QxSmoother.Init` | qx_smoother.h:57-63 | `current = target = initial` and `step = 0`. A positive frame count is kept and zero becomes 1. The invariant `Valid` holds. |
| `QxSmoother.SetTarget` | qx_smoother.h:71-75 | `step * frames = target - current`, using the value held at call time. `current` and `frames` are kept. The invariant holds afterwards. |
| `QxSmoother.Next` | qx_smoother.h:83-97 | When settled, the smoother is unchanged. Otherwise the new `current` lies between the old one and `target`, inclusive (no overshoot), whatever the sign of the step. The invariant "settled, or the step points toward the target" is preserved. The reported value is the new `current`. |
| `QxSmoother.Get` | qx_smoother.h:105-108 | Reports `current`. The record is a value, so reading it changes nothing. |
| `QxSmoother.SettledStays` | qx_smoother.h:85-86 | Once `current == target`, any number of further calls change nothing. |
| `QxSmoother.RampStep` | qx_smoother.h:88-94 | While the ramp is followed, one call moves exactly one step and the overshoot guard does not fire. |
| `QxSmoother.Ramp` | qx_smoother.h:83-97 | `k` calls along the ramp move exactly `k` steps. |
| `QxSmoother.RampAfterSetTarget` | qx_smoother.h:71-97 | After `SetTarget`, the first `k <= frames` calls move `current` by exactly `k` steps and change nothing else. |
| `QxSmoother.ShortBeforeFrames` | qx_smoother.h:71-97 | After `SetTarget` toward a different value, no call before call `frames` reaches the target. |
| `QxSmoother.HoldsAfterFrames` | qx_smoother.h:85-86 | After `SetTarget`, every call past call `frames` leaves the smoother as call `frames` left it. |
| `QxSmoother.Converges` | qx_smoother.h:71-97 | After `SetTarget`, call `k <= frames` reports start + `k*step`. Call `frames` lands exactly on the target. No earlier call does (unless already settled). Every later call is a no-op. |
| `QxSmoother.FourFrameExample` | qx_smoother.h:57-97 | Created at 5 over 4 frames and aimed at 9, the smoother reports 6, 7, 8, 9 and then holds 9. |
| `QxSmoother.SingleFrameJumps` | qx_smoother.h:71-97 | With one frame, the first call lands on the target. |
| `CNumerics.Wrap32` | qx_randomizer.h:149 | Storing into `uint32_t` keeps the value modulo 2^32, and keeps any value already in range. |
| `CNumerics.Trunc` | qx_randomizer.h:84 | The `(int)` cast truncates toward zero. For `x >= 0`: `r <= x < r+1`. For `x < 0`: `r-1 < x <= r`. |
| `CNumerics.BitAnd` | radomizer.c:52-55 | Bitwise AND is bounded by both operands. |
| `CNumerics.BitAndLowOnes` | radomizer.c:29-31 | AND with `n` low one-bits leaves every value below 2^n unchanged. |
| `CNumerics.MaskIsIdentity` | radomizer.c:52-55 | `x & 0xFFFFFFFF == x` for every `uint32_t`. |
| `QxRandomizer.StepCount` | qx_randomizer.h:84 | `max_steps` is the integer nearest to `range/resolution`, with halves rounded up. It is non-negative for `range >= 0`, `resolution > 0`. |
| `QxRandomizer.NextSeed` | qx_randomizer.h:149 | The new seed is congruent to `seed*1664525 + 1013904223` modulo 2^32. |
| `QxRandomizer.Init` | qx_randomizer.h:73-85 | Seed 856382025. The bounds and resolution are stored. All caches (`range`, `inv_max_uint`, `max_steps`) agree with them. |
| `QxRandomizer.SetSeed` | qx_randomizer.h:96-99 | Only the seed changes. The caches stay consistent. |
| `QxRandomizer.SetRange` | qx_randomizer.h:112-120 | New bounds, with `range` and `max_steps` recomputed from the current resolution. Seed and resolution are kept. |
| `QxRandomizer.SetResolution` | qx_randomizer.h:132-136 | Only the resolution and `max_steps` change. Seed, bounds and `range` are kept. The caches stay consistent. |
| `QxRandomizer.BucketIndex` | qx_randomizer.h:151-155 | The bucket never exceeds `max_steps`. With the cached normaliser and `max_steps >= 0`, a seed below `UINT32_MAX` selects bucket `floor(normalized * (max_steps + 1))`, which lies in `[0, max_steps]`. The seed `UINT32_MAX` selects bucket `max_steps`. |
| `QxRandomizer.GuardFiresOnlyAtTop` | qx_randomizer.h:151-155 | The raw index runs past `max_steps` exactly when the seed is `UINT32_MAX`, where the normalised seed is 1. |
| `QxRandomizer.Quantise` | qx_randomizer.h:142-157 | The value is `min + k*resolution` for the bucket `k` that `BucketIndex` selects, so it is snapped to the resolution grid above `min`. A well-configured randomizer maps any seed into `[min, min + max_steps*resolution]`. That top is at most `max + resolution/2`. |
| `QxRandomizer.GetFloat` | qx_randomizer.h:147-158 | Only the seed changes, and it advances by one generator step. The value is the quantised new seed, at least `min` and at most `min + max_steps*resolution <= max + resolution/2`. |
| `QxRandomizer.AfterOnlyAdvancesSeed` | qx_randomizer.h:147-158 | After `n` draws the record equals the original except for the `n`-th successor seed. |
| `QxRandomizer.DrawAt` | qx_randomizer.h:147-158 | Draw `i` is the quantised `(i+1)`-th successor of the starting seed. |
| `QxRandomizer.Reproducible` | qx_randomizer.h:44-45 | Two randomizers with consistent caches that agree on bounds, resolution and seed produce identical draw sequences. |
| `QxRandomizer.DrawsBounded` | qx_randomizer.h:142-157 | Every draw is in `[min, max + resolution/2]`. |
| `QxRandomizer.TopWithinMaxIff` | qx_randomizer.h:84 | The top bucket stays within `max` exactly when the fractional part of `range/resolution` is below 1/2. |
| `QxRandomizer.TopPredecessorWraps` | qx_randomizer.h:149 | One generator step takes 653637408 to `UINT32_MAX`. |
| `QxRandomizer.TopIsDrawn` | qx_randomizer.h:149-157 | Seeding with 653637408 makes the next draw the top bucket `min + max_steps*resolution`. |
| `QxRandomizer.HalfStepRoundsUp` | qx_randomizer.h:84 | Range 1 at resolution 0.4 gives `max_steps = 3`. |
| `QxRandomizer.TopDrawExceedsMax` | qx_randomizer.h:142 | For `[0, 1]` at resolution 0.4, seeded with 653637408, the draw is 1.2 > `max`. |
| `QxRandomizer.CorrectedStepCount` | qx_randomizer.h:84 | The corrected count is the number of whole steps that fit: `n*resolution <= range < (n+1)*resolution`. |
| `QxRandomizer.CorrectedInit` | qx_randomizer.h:73-85 | Like `Init`, but `max_steps` is `CorrectedStepCount(max - min, resolution)`, and the top bucket `min + max_steps*resolution` never exceeds `max`. |
| `QxRandomizer.CorrectedSetRange` | qx_randomizer.h:112-120 | Like `SetRange`, but `max_steps` is `CorrectedStepCount(max - min, resolution)`, and with ordered bounds and a positive resolution the top bucket never exceeds `max`. |
| `QxRandomizer.CorrectedSetResolution` | qx_randomizer.h:132-136 | Like `SetResolution`, but `max_steps` is `CorrectedStepCount(range, resolution)`, and with a consistent non-negative range and a positive resolution the top bucket never exceeds `max`. |
| `QxRandomizer.CorrectedDrawInRange` | qx_randomizer.h:142 | With the corrected count, every draw lies in `[min, max]`, as documented. |
| `OpaqueRandomizer.NextSeed` | radomizer.c:52-55 | The masked step equals the wrapping step `(1664525*seed + 1013904223) mod 2^32`. |
| `OpaqueRandomizer.Init` | radomizer.c:57-66 | Bounds are stored and the seed is `0x12345678`. The resolution is always positive: it is kept when positive, and 1 otherwise. |
| `OpaqueRandomizer.SetSeed` | radomizer.c:68-74 | Only the seed changes. |
| `OpaqueRandomizer.RoundedIndex` | radomizer.c:83-89 | With `min <= max`, the step index is non-negative and is the integer nearest to `normalized*range/resolution`, with halves rounded up. |
| `OpaqueRandomizer.UnclampedAboveMin` | radomizer.c:91-94 | With `min <= max`, `min + k*resolution >= min`, so the lower clamp never fires. |
| `OpaqueRandomizer.GetFloat` | radomizer.c:76-99 | Only the seed changes. The value is `qx_clamp_float` of `min + k*resolution`. With `min <= max` it lies in `[min, max]` and is either `min + k*resolution` or the clamped `max`. |
| `OpaqueRandomizer.AfterOnlyAdvancesSeed` | radomizer.c:81 | After `n` draws, bounds and resolution are unchanged and the seed is the `n`-th successor. |
| `OpaqueRandomizer.DrawAt` | radomizer.c:76-99 | Draw `i` is the clamped quantisation of the `(i+1)`-th successor of the starting seed. |
| `OpaqueRandomizer.Reproducible` | radomizer.h:43-44 | Two instances that agree on bounds, resolution and seed produce identical draw sequences. Nothing shared between instances enters the result. |
| `OpaqueRandomizer.DrawsInRange` | radomizer.h:74-80 | With `min <= max`, every draw lies in `[min, max]`. |
| `RandomizerVariants.SameGenerator` | radomizer.c:29-31 | The masked step of `radomizer.c` equals the wrapping step of `qx_randomizer.h`. |
| `RandomizerVariants.SameSeedSequence` | radomizer.c:52-55 | From the same seed, both variants walk the same seed sequence. |
| `RandomizerVariants.OpaqueTopIsClamped` | radomizer.c:91-96 | For `[0, 1]` at 0.4, the top seed rounds to 1.2 and is clamped to `max` = 1. |
| `RandomizerVariants.VariantsDisagreeAtTop` | radomizer.c:83-96 | From the same configuration and seed, the bucket variant draws 1.2 and the round-and-clamp variant draws 1.0. |

## Left out

- Floating point: every `float` is a `real`. Effects that exist only in IEEE arithmetic are not modelled. These include a smoother step that underflows to 0 and stalls, a normalised seed below `UINT32_MAX` that rounds up to 1.0f, and the rounding of `1.0f / UINT32_MAX`.
- QxFader.Init: requires `sampleRate != 0` when `fadeTime > 0`. In C that division by zero yields an infinite step, which a real cannot represent.
- QxRandomizer.Init: requires `resolution != 0`. `SetResolution` and `StepCount` require the same. The header does no validation, and dividing by zero gives an infinity whose `(int)` conversion is undefined in C.
- QxRandomizer.StepCount: `Trunc` is exact and unbounded. The overflow of the 32-bit `int` for huge `range/resolution` is not modelled.
- QxRandomizer.GetFloat: its range bounds are stated only for well-configured randomizers. That means caches consistent, `range >= 0` and `resolution > 0`. Crossed bounds or a negative resolution are outside what the header is meant for.
- QxSmoother.SetTarget: requires `frames >= 1`. Every smoother built by `Init` has this. A struct filled in by hand with `frames == 0` would divide by zero.
- QxSmoother.Init: `size_t` is an unbounded `nat`. Its 64-bit width plays no role in the arithmetic.
- OpaqueRandomizer.RoundedIndex: `Trunc` is exact and unbounded. The undefined C conversion of an out-of-range float to `int` at radomizer.c:89, for huge `range/resolution`, is not modelled.
- OpaqueRandomizer.GetFloat: requires `resolution > 0`. The struct is opaque and only `Init` creates one, so this always holds.
- Null-pointer guards in `radomizer.c` (lines 59-60, 70-71, 78-79): a Dafny value cannot be null.
- Thread safety notes, `extern "C"` blocks, the include guard `QX_RANDOMIZER_H` shared by both randomizer headers, and `radomizer.c` including `"randomizer.h"`: build and concurrency details with no behaviour to model.
- Statistical quality and period of the generator: the source promises only determinism and reproducibility.
- The normalize/denormalize, decibel conversion, ring-buffer interpolation and wrap helpers: the `qx_math.h` here contains only the clamp. Those helpers are not part of this model.

## Findings

| source | as written | input that shows it | evidently intended | confidence | as-written member | corrected member |
|---|---|---|---|---|---|---|
| qx_randomizer.h:84 | `max_steps = (int)(range / resolution + 0.5f)` rounds the step count to nearest. The top bucket `min + max_steps*resolution` can then exceed `max` by up to `resolution/2`. The doc at qx_randomizer.h:142 promises a value in `[min, max]`. | `min = 0`, `max = 1`, `resolution = 0.4`, seed 653637408: the next seed is `UINT32_MAX`, `max_steps = 3`, and the draw is 1.2 | every draw lies in `[min, max]` (count only whole steps: `max_steps = floor(range/resolution)`) | high; not executed | `QxRandomizer.TopDrawExceedsMax` | `QxRandomizer.CorrectedDrawInRange` |

`QxRandomizer.TopWithinMaxIff` makes the finding exact. The documented bound fails exactly when the fractional part of `range/resolution` is at least 1/2. `QxRandomizer.TopIsDrawn` shows that the top bucket is always reachable. The same rounding recurs in `set_range` (qx_randomizer.h:119) and `set_resolution` (qx_randomizer.h:135). `QxRandomizer.CorrectedSetRange` and `QxRandomizer.CorrectedSetResolution` apply the same correction there.
