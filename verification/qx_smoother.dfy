/** The frame smoother of `qx_smoother.h`: `current` walks toward `target`
    in `frames` equal steps and is snapped onto `target` if a step would
    carry it past. */
module QxSmoother {

  datatype Smoother = Smoother(current: real, target: real, step: real, frames: nat)

  /** The smoother is settled, or its step points from `current` toward `target`. */
  predicate Heading(s: Smoother)
  {
    || s.current == s.target
    || (s.step > 0.0 && s.current < s.target)
    || (s.step < 0.0 && s.current > s.target)
  }

  /** The invariant every initialised smoother keeps. */
  predicate Valid(s: Smoother)
  {
    s.frames >= 1 && Heading(s)
  }

  /** `x` lies on the closed segment between `a` and `b`. */
  predicate Between(a: real, x: real, b: real)
  {
    (a <= x <= b) || (b <= x <= a)
  }

  /** `qx_smoother_init`: settled at `initial`; a frame count of zero is
      replaced by one. */
  function Init(initial: real, frames: nat): (s: Smoother)
    ensures Valid(s)
    ensures s.current == initial && s.target == initial && s.step == 0.0
    ensures frames > 0 ==> s.frames == frames
    ensures frames == 0 ==> s.frames == 1
  {
    Smoother(initial, initial, 0.0, if frames > 0 then frames else 1)
  }

  /** `qx_smoother_set_target`: the step is the distance from the value held
      now (not the value the smoother was created with) divided by `frames`. */
  function SetTarget(s: Smoother, target: real): (r: Smoother)
    requires s.frames >= 1
    ensures Valid(r)
    ensures r.target == target && r.current == s.current && r.frames == s.frames
    ensures r.step * (s.frames as real) == target - s.current
  {
    s.(target := target, step := (target - s.current) / (s.frames as real))
  }

  /** `qx_smoother_next`: returns the advanced smoother and the value it reports. */
  function Next(s: Smoother): (r: (Smoother, real))
    ensures r.1 == Get(r.0)
    ensures r.0.target == s.target && r.0.step == s.step && r.0.frames == s.frames
    ensures s.current == s.target ==> r.0 == s
    ensures Between(s.current, r.0.current, s.target)
    ensures Heading(s) ==> Heading(r.0)
    ensures Valid(s) ==> Valid(r.0)
  {
    if s.current == s.target then (s, s.current)
    else
      var moved := s.current + s.step;
      var clamped :=
        if (s.step > 0.0 && moved > s.target) || (s.step < 0.0 && moved < s.target)
        then s.target else moved;
      (s.(current := clamped), clamped)
  }

  /** `qx_smoother_get`: the value held now; reading it changes nothing. */
  function Get(s: Smoother): (r: real)
    ensures r == s.current
  {
    s.current
  }

  /** The smoother after `k` calls to `Next`. */
  function NextN(s: Smoother, k: nat): Smoother
    decreases k
  {
    if k == 0 then s else NextN(Next(s).0, k - 1)
  }

  lemma {:induction false} NextNAdd(s: Smoother, a: nat, b: nat)
    ensures NextN(s, a + b) == NextN(NextN(s, a), b)
    decreases a
  {
    if a > 0 {
      NextNAdd(Next(s).0, a - 1, b);
    }
  }

  /** Once settled, further calls change nothing. */
  lemma {:induction false} SettledStays(s: Smoother, k: nat)
    requires s.current == s.target
    ensures NextN(s, k) == s
    decreases k
  {
    if k > 0 {
      SettledStays(Next(s).0, k - 1);
    }
  }

  /** One call moves a smoother that is `j < frames` steps along the ramp
      from `c0` to `target` exactly one step on: the overshoot guard never
      fires while the ramp is being followed. */
  lemma RampStep(s: Smoother, c0: real, j: nat)
    requires s.frames >= 1 && j < s.frames
    requires s.target == c0 + (s.frames as real) * s.step
    requires s.current == c0 + (j as real) * s.step
    ensures Next(s).0 == s.(current := c0 + ((j + 1) as real) * s.step)
  {
    var gap: real := (s.frames - (j + 1)) as real;
    var next: real := c0 + ((j + 1) as real) * s.step;
    assert gap >= 0.0;
    assert s.target - next == gap * s.step;
    assert next == s.current + s.step;
    if s.current == s.target {
      assert (gap + 1.0) * s.step == 0.0;
      assert s.step == 0.0;
    } else if s.step > 0.0 {
      assert gap * s.step >= 0.0;
    } else if s.step < 0.0 {
      assert gap * s.step <= 0.0;
    }
  }

  /** While `j + k` stays within the ramp, `k` more calls move a smoother that
      is `j` steps along the ramp from `c0` to `target` exactly `k` steps on. */
  lemma {:induction false} Ramp(s: Smoother, c0: real, j: nat, k: nat)
    requires s.frames >= 1 && j + k <= s.frames
    requires s.target == c0 + (s.frames as real) * s.step
    requires s.current == c0 + (j as real) * s.step
    ensures NextN(s, k) == s.(current := c0 + ((j + k) as real) * s.step)
    decreases k
  {
    if k > 0 {
      RampStep(s, c0, j);
      Ramp(Next(s).0, c0, j + 1, k - 1);
    }
  }

  /** After `SetTarget`, call `k <= frames` reports the start value plus `k` steps. */
  lemma RampAfterSetTarget(s: Smoother, target: real, k: nat)
    requires s.frames >= 1 && k <= s.frames
    ensures NextN(SetTarget(s, target), k)
            == SetTarget(s, target).(current := s.current + (k as real) * SetTarget(s, target).step)
  {
    var r := SetTarget(s, target);
    assert r.target == s.current + (s.frames as real) * r.step;
    Ramp(r, s.current, 0, k);
  }

  /** After `SetTarget`, the smoother is still short of a distinct target
      before call `frames`. */
  lemma ShortBeforeFrames(s: Smoother, target: real, k: nat)
    requires s.frames >= 1 && k < s.frames && s.current != target
    ensures NextN(SetTarget(s, target), k).current != target
  {
    var r := SetTarget(s, target);
    RampAfterSetTarget(s, target, k);
    assert r.step != 0.0;
    assert target - (s.current + (k as real) * r.step) == ((s.frames - k) as real) * r.step;
    assert ((s.frames - k) as real) * r.step != 0.0;
  }

  /** After `SetTarget`, every call past call `frames` is a no-op. */
  lemma HoldsAfterFrames(s: Smoother, target: real, k: nat)
    requires s.frames >= 1 && k >= s.frames
    ensures NextN(SetTarget(s, target), k) == NextN(SetTarget(s, target), s.frames)
  {
    var r := SetTarget(s, target);
    RampAfterSetTarget(s, target, s.frames);
    assert r.step * (s.frames as real) == target - s.current;
    assert NextN(r, s.frames).current == target == NextN(r, s.frames).target;
    NextNAdd(r, s.frames, k - s.frames);
    SettledStays(NextN(r, s.frames), k - s.frames);
  }

  /** After `SetTarget`, the `k`-th call (for `k` up to `frames`) reports the
      start value plus `k` steps; call number `frames` lands exactly on the
      target, no earlier call does, and every later call is a no-op. */
  lemma Converges(s: Smoother, target: real, k: nat)
    requires s.frames >= 1
    ensures var r := SetTarget(s, target);
      && (k <= s.frames ==> NextN(r, k).current == s.current + (k as real) * r.step)
      && NextN(r, s.frames).current == target
      && (k < s.frames && s.current != target ==> NextN(r, k).current != target)
      && (k >= s.frames ==> NextN(r, k) == NextN(r, s.frames))
  {
    var r := SetTarget(s, target);
    RampAfterSetTarget(s, target, s.frames);
    assert r.step * (s.frames as real) == target - s.current;
    if k <= s.frames {
      RampAfterSetTarget(s, target, k);
    }
    if k < s.frames && s.current != target {
      ShortBeforeFrames(s, target, k);
    }
    if k >= s.frames {
      HoldsAfterFrames(s, target, k);
    }
  }

  /** A smoother created at 5 over 4 frames and aimed at 9 reports 6, 7, 8, 9
      and then holds 9. */
  lemma FourFrameExample()
    ensures var r := SetTarget(Init(5.0, 4), 9.0);
      && NextN(r, 1).current == 6.0
      && NextN(r, 2).current == 7.0
      && NextN(r, 3).current == 8.0
      && NextN(r, 4).current == 9.0
      && NextN(r, 5).current == 9.0
  {
    var s := Init(5.0, 4);
    Converges(s, 9.0, 1);
    Converges(s, 9.0, 2);
    Converges(s, 9.0, 3);
    Converges(s, 9.0, 4);
    Converges(s, 9.0, 5);
  }

  /** With a single frame the first call jumps straight to the target. */
  lemma SingleFrameJumps(s: Smoother, target: real)
    requires s.frames == 1
    ensures Next(SetTarget(s, target)).1 == target
  {
    Converges(s, target, 1);
  }
}
