/** The linear fader of `qx_fader.h`: a gain in [0, 1] that moves by a fixed
    step toward 1 (enabled, fade in) or toward 0 (disabled, fade out) on every
    sample it processes. */
module QxFader {
  import opened QxMath
  import opened CNumerics

  /** `fade` is the current gain, `step` the per-sample change, `enabled`
      the direction of travel (true: toward 1). */
  datatype Fader = Fader(fade: real, step: real, enabled: bool)

  /** `qx_fader_init`: silent, disabled, and a step that covers the whole
      range in `fadeTime` milliseconds at `sampleRate` samples per second; a
      non-positive fade time means an instant, one-sample fade. */
  function Init(fadeTime: real, sampleRate: real): (f: Fader)
    requires fadeTime <= 0.0 || sampleRate != 0.0
    ensures f.fade == 0.0 && !f.enabled
    ensures fadeTime <= 0.0 ==> f.step == 1.0
    ensures fadeTime > 0.0 ==> f.step * (fadeTime / 1000.0 * sampleRate) == 1.0
    ensures fadeTime > 0.0 && sampleRate > 0.0 ==> f.step > 0.0
  {
    if fadeTime <= 0.0 then Fader(0.0, 1.0, false)
    else Fader(0.0, 1.0 / ((fadeTime / 1000.0) * sampleRate), false)
  }

  /** `qx_fader_enable`: choose the direction and restart the ramp from the
      opposite extreme, so that a fade always crosses the full range. */
  function Enable(f: Fader, enabled: bool): (r: Fader)
    ensures r.enabled == enabled && r.step == f.step
    ensures enabled ==> r.fade == 0.0
    ensures !enabled ==> r.fade == 1.0
  {
    Fader(if enabled then 0.0 else 1.0, f.step, enabled)
  }

  /** The state change of one `qx_fader_fade` call. */
  function Advance(f: Fader): (r: Fader)
    ensures 0.0 <= r.fade <= 1.0
    ensures r.step == f.step && r.enabled == f.enabled
    ensures f.enabled && f.step >= 0.0 && 0.0 <= f.fade <= 1.0 ==> f.fade <= r.fade
    ensures !f.enabled && f.step >= 0.0 && 0.0 <= f.fade <= 1.0 ==> r.fade <= f.fade
  {
    var moved := if f.enabled then f.fade + f.step else f.fade - f.step;
    f.(fade := Clamp(moved, 0.0, 1.0))
  }

  /** `qx_fader_fade`: advance the gain, then scale the sample by the new gain.
      Returns the updated fader and the faded sample. */
  function Fade(f: Fader, sample: real): (r: (Fader, real))
    ensures r.0 == Advance(f)
    ensures 0.0 <= r.0.fade <= 1.0
    ensures r.1 == sample * r.0.fade
    ensures Dist(r.1, 0.0) <= Dist(sample, 0.0)
  {
    var g := Advance(f);
    ScaleShrinks(sample, g.fade);
    (g, sample * g.fade)
  }

  /** Multiplying by a gain in [0, 1] never increases magnitude. */
  lemma ScaleShrinks(x: real, gain: real)
    requires 0.0 <= gain <= 1.0
    ensures Dist(x * gain, 0.0) <= Dist(x, 0.0)
  {
    assert x * (1.0 - gain) == x - x * gain;
    if x >= 0.0 {
      MulNonNegative(x, 1.0 - gain);
      MulNonNegative(x, gain);
    } else {
      MulNonNegative(-x, 1.0 - gain);
      MulNonNegative(-x, gain);
    }
  }

  /** The fader after `k` processed samples. */
  function AdvanceN(f: Fader, k: nat): Fader
    decreases k
  {
    if k == 0 then f else AdvanceN(Advance(f), k - 1)
  }

  /** The distance `k` steps cover, one step at a time. */
  function Travel(step: real, k: nat): (d: real)
    ensures step >= 0.0 ==> d >= 0.0
    decreases k
  {
    if k == 0 then 0.0 else step + Travel(step, k - 1)
  }

  lemma {:induction false} TravelIsProduct(step: real, k: nat)
    ensures Travel(step, k) == k as real * step
    decreases k
  {
    if k > 0 {
      TravelIsProduct(step, k - 1);
      assert k as real * step == step + (k - 1) as real * step;
    }
  }

  /** With a non-negative step, more steps never cover less distance. */
  lemma {:induction false} TravelMonotone(step: real, j: nat, k: nat)
    requires step >= 0.0 && j <= k
    ensures Travel(step, j) <= Travel(step, k)
    decreases k
  {
    if j < k {
      TravelMonotone(step, j, k - 1);
    }
  }

  /** Capping at 1 and then adding a non-negative amount and capping again
      is one cap of the whole sum. */
  lemma CapAgain(x: real, rest: real)
    requires rest >= 0.0
    ensures Min(1.0, Min(1.0, x) + rest) == Min(1.0, x + rest)
  {
  }

  /** Flooring at 0 and then subtracting a non-negative amount and flooring
      again is one floor of the whole difference. */
  lemma FloorAgain(x: real, rest: real)
    requires rest >= 0.0
    ensures Max(0.0, Max(0.0, x) - rest) == Max(0.0, x - rest)
  {
  }

  lemma {:induction false} FadeInTravel(f: Fader, k: nat)
    requires 0.0 <= f.fade <= 1.0 && f.enabled && f.step >= 0.0
    ensures AdvanceN(f, k) == f.(fade := Min(1.0, f.fade + Travel(f.step, k)))
    decreases k
  {
    if k > 0 {
      var g := Advance(f);
      assert g == f.(fade := Min(1.0, f.fade + f.step));
      FadeInTravel(g, k - 1);
      CapAgain(f.fade + f.step, Travel(f.step, k - 1));
    }
  }

  lemma {:induction false} FadeOutTravel(f: Fader, k: nat)
    requires 0.0 <= f.fade <= 1.0 && !f.enabled && f.step >= 0.0
    ensures AdvanceN(f, k) == f.(fade := Max(0.0, f.fade - Travel(f.step, k)))
    decreases k
  {
    if k > 0 {
      var g := Advance(f);
      assert g == f.(fade := Max(0.0, f.fade - f.step));
      FadeOutTravel(g, k - 1);
      FloorAgain(f.fade - f.step, Travel(f.step, k - 1));
    }
  }

  /** Fading in from any gain in [0, 1], the gain after `k` samples is the
      starting gain plus `k` steps, capped at 1; nothing else changes. */
  lemma FadeInTrajectory(f: Fader, k: nat)
    requires 0.0 <= f.fade <= 1.0 && f.enabled && f.step >= 0.0
    ensures AdvanceN(f, k) == f.(fade := Min(1.0, f.fade + k as real * f.step))
  {
    FadeInTravel(f, k);
    TravelIsProduct(f.step, k);
  }

  /** Fading out from any gain in [0, 1], the gain after `k` samples is the
      starting gain minus `k` steps, floored at 0; nothing else changes. */
  lemma FadeOutTrajectory(f: Fader, k: nat)
    requires 0.0 <= f.fade <= 1.0 && !f.enabled && f.step >= 0.0
    ensures AdvanceN(f, k) == f.(fade := Max(0.0, f.fade - k as real * f.step))
  {
    FadeOutTravel(f, k);
    TravelIsProduct(f.step, k);
  }

  /** With a non-negative step the gain never moves against the direction of
      travel: non-decreasing while enabled, non-increasing while disabled. */
  lemma FadeMonotone(f: Fader, j: nat, k: nat)
    requires 0.0 <= f.fade <= 1.0 && f.step >= 0.0
    requires j <= k
    ensures f.enabled ==> AdvanceN(f, j).fade <= AdvanceN(f, k).fade
    ensures !f.enabled ==> AdvanceN(f, k).fade <= AdvanceN(f, j).fade
  {
    TravelMonotone(f.step, j, k);
    if f.enabled {
      FadeInTravel(f, j);
      FadeInTravel(f, k);
    } else {
      FadeOutTravel(f, j);
      FadeOutTravel(f, k);
    }
  }

  /** `k * step` reaches 1 exactly from sample `Ceil(1 / step)` on. */
  lemma StepsToCover(step: real, k: nat)
    requires step > 0.0
    ensures k as real * step >= 1.0 <==> k >= Ceil(1.0 / step)
  {
    var c := Ceil(1.0 / step);
    if k >= c {
      assert k as real >= 1.0 / step;
      assert k as real * step >= (1.0 / step) * step;
    } else {
      assert k as real < 1.0 / step;
      assert k as real * step < (1.0 / step) * step;
    }
  }

  /** After enabling, the gain is exactly 1 precisely from the `Ceil(1/step)`-th
      sample on: it gets there within that many samples and then holds. */
  lemma FadeInReachesFull(f: Fader, k: nat)
    requires f.step > 0.0
    ensures AdvanceN(Enable(f, true), k).fade == 1.0 <==> k >= Ceil(1.0 / f.step)
  {
    FadeInTrajectory(Enable(f, true), k);
    StepsToCover(f.step, k);
  }

  /** After disabling, the gain is exactly 0 precisely from the `Ceil(1/step)`-th
      sample on. */
  lemma FadeOutReachesSilence(f: Fader, k: nat)
    requires f.step > 0.0
    ensures AdvanceN(Enable(f, false), k).fade == 0.0 <==> k >= Ceil(1.0 / f.step)
  {
    FadeOutTrajectory(Enable(f, false), k);
    StepsToCover(f.step, k);
  }

  /** A non-positive fade time fades in on the very first sample. */
  lemma InstantFade(sampleRate: real)
    ensures Fade(Enable(Init(0.0, sampleRate), true), 1.0).1 == 1.0
  {
  }
}
