/**
 * The numbers behind the parallax engine: `clamp`, the normalisation of
 * pointer and tilt samples to [-1, 1], the per-frame smoothing step with its
 * convergence, and the scaled read-out of one axis.
 */
module ParallaxMath {

  // ---------------------------------------------------------------------
  // Numbers

  function Abs(x: real): real {
    if x < 0.0 then -x else x
  }

  function Min(a: real, b: real): real {
    if a <= b then a else b
  }

  function Max(a: real, b: real): real {
    if a <= b then b else a
  }

  /** `clamp(value, min, max)`, that is `Math.min(Math.max(value, min), max)`.
      With `min <= max` the result lies in [min, max], is `value` itself when
      that is already inside, and is the nearer bound otherwise; with
      `min > max` the upper bound wins. */
  function Clamp(value: real, min: real, max: real): (r: real)
    ensures r <= max
    ensures min <= max ==> min <= r
    ensures min <= max ==> r == if value < min then min else if max < value then max else value
    ensures max < min ==> r == max
  {
    var atLeastMin := if min < value then value else min;
    if atLeastMin < max then atLeastMin else max
  }

  // ---------------------------------------------------------------------
  // Input normalisation

  /** The tilt, in degrees, that maps to a full deflection. */
  const MaxTilt: real := 30.0

  /** The front-back tilt, in degrees, read as the resting position. */
  const BetaBaseline: real := 45.0

  /** A pointer coordinate over the viewport size, rescaled so that the
      viewport's near edge is -1, its centre 0 and its far edge 1. */
  function NormalizePointer(client: real, size: real): (r: real)
    requires size > 0.0
    ensures r == 0.0 <==> client * 2.0 == size
    ensures client == 0.0 ==> r == -1.0
    ensures client == size ==> r == 1.0
  {
    client / size * 2.0 - 1.0
  }

  /** A pointer inside the viewport gives a coordinate in [-1, 1]. */
  lemma PointerInViewport(client: real, size: real)
    requires size > 0.0 && 0.0 <= client <= size
    ensures -1.0 <= NormalizePointer(client, size) <= 1.0
  {
    var q := client / size;
    assert q * size == client;
    UnitFactor(q, size);
  }

  /** A factor that scales a positive whole to between 0 and the whole lies
      in [0, 1]. */
  lemma UnitFactor(q: real, whole: real)
    requires whole > 0.0 && 0.0 <= q * whole <= whole
    ensures 0.0 <= q <= 1.0
  {
    if q > 1.0 {
      MulPos(q - 1.0, whole);
    }
    if q < 0.0 {
      MulPos(-q, whole);
    }
  }

  /** One tilt angle over the tilt range after subtracting `baseline`, clamped
      to [-1, 1]: linear within `MaxTilt` degrees of the baseline, saturated
      beyond it. */
  function TiltAxis(angle: real, baseline: real): (r: real)
    ensures -1.0 <= r <= 1.0
    ensures baseline - MaxTilt <= angle <= baseline + MaxTilt ==> r * MaxTilt == angle - baseline
    ensures angle >= baseline + MaxTilt ==> r == 1.0
    ensures angle <= baseline - MaxTilt ==> r == -1.0
  {
    Clamp((angle - baseline) / MaxTilt, -1.0, 1.0)
  }

  // ---------------------------------------------------------------------
  // Smoothing

  /** Below this distance the current position snaps onto the target. */
  const SnapThreshold: real := 0.0001

  lemma MulNonneg(a: real, b: real)
    requires a >= 0.0 && b >= 0.0
    ensures a * b >= 0.0
  {
  }

  lemma MulPos(a: real, b: real)
    requires a > 0.0 && b > 0.0
    ensures a * b > 0.0
  {
  }

  /** Scaling by a factor in [0, 1] keeps a value between 0 and itself. */
  lemma ScaleBetween(x: real, d: real)
    requires 0.0 <= d <= 1.0
    ensures Min(0.0, x) <= x * d <= Max(0.0, x)
  {
    assert x - x * d == x * (1.0 - d);
    if x >= 0.0 {
      MulNonneg(x, 1.0 - d);
      MulNonneg(x, d);
    } else {
      MulNonneg(-x, 1.0 - d);
      MulNonneg(-x, d);
    }
  }

  /** One axis of one animation frame: `current += (target - current) * damping`,
      then snap onto `target` when closer than `SnapThreshold`. The frame
      snaps exactly when the lerped gap `(1 - damping) * (target - current)`
      is below the threshold; otherwise the gap has shrunk by exactly the
      factor `1 - damping` and is at least the threshold. */
  function LerpStep(current: real, target: real, damping: real): (next: real)
    ensures next == target <==> Abs((1.0 - damping) * (target - current)) < SnapThreshold
    ensures next == target || Abs(target - next) >= SnapThreshold
    ensures next == target || target - next == (1.0 - damping) * (target - current)
  {
    var moved := current + (target - current) * damping;
    assert target - moved == (1.0 - damping) * (target - current);
    if Abs(target - moved) < SnapThreshold then target else moved
  }

  /** For a damping in [0, 1] a frame moves the position to a point between
      where it was and the target, so the gap never grows; for a positive
      damping the gap strictly shrinks while there is one. */
  lemma LerpStepApproaches(current: real, target: real, damping: real)
    requires 0.0 <= damping <= 1.0
    ensures var next := LerpStep(current, target, damping);
      && Min(current, target) <= next <= Max(current, target)
      && Abs(target - next) <= Abs(target - current)
      && (damping > 0.0 && current != target ==> Abs(target - next) < Abs(target - current))
  {
    var next := LerpStep(current, target, damping);
    if next != target {
      var q := 1.0 - damping;
      ScaleBetween(target - current, q);
      AbsScale(target - next, target - current, q);
      if damping > 0.0 && current != target {
        assert Abs(target - current) > 0.0;
        assert q * Abs(target - current) < Abs(target - current) by {
          assert Abs(target - current) - q * Abs(target - current) == damping * Abs(target - current);
          MulPos(damping, Abs(target - current));
        }
      }
      MulNonneg(damping, Abs(target - current));
      assert Abs(target - current) - q * Abs(target - current) == damping * Abs(target - current);
    }
  }

  /** The position after `frames` animation frames towards a fixed target. */
  function Settle(current: real, target: real, damping: real, frames: nat): real {
    if frames == 0 then current
    else LerpStep(Settle(current, target, damping, frames - 1), target, damping)
  }

  /** Positions inside [-1, 1] stay there while they chase a target inside it. */
  lemma {:induction false} SettleStaysInBox(current: real, target: real, damping: real, frames: nat)
    requires -1.0 <= current <= 1.0 && -1.0 <= target <= 1.0
    requires 0.0 <= damping <= 1.0
    ensures -1.0 <= Settle(current, target, damping, frames) <= 1.0
  {
    if frames > 0 {
      SettleStaysInBox(current, target, damping, frames - 1);
      LerpStepApproaches(Settle(current, target, damping, frames - 1), target, damping);
    }
  }

  /** The factor one frame applies to the gap, against the bound's denominator. */
  lemma DecayFactor(d: real, k: real)
    requires 0.0 < d <= 1.0 && k >= 0.0
    ensures (1.0 - d) * (1.0 + (k + 1.0) * d) <= 1.0 + k * d
  {
    assert (1.0 - d) * (1.0 + (k + 1.0) * d) == 1.0 + k * d - (k + 1.0) * (d * d);
    assert (k + 1.0) * (d * d) >= 0.0;
  }

  lemma AbsScale(y: real, x: real, s: real)
    requires s >= 0.0 && y == s * x
    ensures Abs(y) == s * Abs(x)
  {
    if x < 0.0 {
      assert s * x == -(s * (-x));
      MulNonneg(s, -x);
    } else {
      MulNonneg(s, x);
    }
  }

  /** The decay bound's left-hand side: a gap weighted by `1 + k * d`. */
  function Weighted(gap: real, k: nat, d: real): real {
    gap * (1.0 + k as real * d)
  }

  /** One frame of the decay bound, on plain numbers: a gap `g` within the
      bound for `k` frames, scaled by `1 - d`, is within the bound for `k + 1`. */
  lemma GapStep(g0: real, g: real, gn: real, d: real, k: nat)
    requires 0.0 < d <= 1.0 && g >= 0.0
    requires Weighted(g, k, d) <= g0
    requires gn == 0.0 || gn == (1.0 - d) * g
    ensures Weighted(gn, k + 1, d) <= g0
  {
    var kr := k as real;
    assert (k + 1) as real == kr + 1.0;
    if gn == 0.0 {
      MulNonneg(g, 1.0 + kr * d);
      return;
    }
    DecayFactor(d, kr);
    var a := (1.0 - d) * (1.0 + (kr + 1.0) * d);
    var b := 1.0 + kr * d;
    assert ((1.0 - d) * g) * (1.0 + (kr + 1.0) * d) == g * a;
    MulNonneg(g, b - a);
    assert g * b - g * a == g * (b - a);
  }

  /** One frame either closes the gap or scales it by `1 - damping`. */
  lemma FrameGap(current: real, target: real, damping: real)
    requires 0.0 < damping <= 1.0
    ensures var gap := Abs(target - LerpStep(current, target, damping));
      gap == 0.0 || gap == (1.0 - damping) * Abs(target - current)
  {
    var next := LerpStep(current, target, damping);
    if next != target {
      AbsScale(target - next, target - current, 1.0 - damping);
    }
  }

  /** One frame of the decay bound, from any position `s` whose gap is
      within the bound for `n` frames. */
  lemma FrameBound(g0: real, s: real, target: real, damping: real, n: nat)
    requires 0.0 < damping <= 1.0
    requires Weighted(Abs(target - s), n, damping) <= g0
    ensures Weighted(Abs(target - LerpStep(s, target, damping)), n + 1, damping) <= g0
  {
    FrameGap(s, target, damping);
    GapStep(g0, Abs(target - s), Abs(target - LerpStep(s, target, damping)), damping, n);
  }

  /** One frame of geometric decay, on the positions the frames pass through. */
  lemma SettleGapStep(current: real, target: real, damping: real, n: nat)
    requires 0.0 < damping <= 1.0
    requires Weighted(Abs(target - Settle(current, target, damping, n)), n, damping) <= Abs(target - current)
    ensures Weighted(Abs(target - Settle(current, target, damping, n + 1)), n + 1, damping) <= Abs(target - current)
  {
    FrameBound(Abs(target - current), Settle(current, target, damping, n), target, damping, n);
  }

  /** Geometric decay: after `frames` frames the gap to the target is at most
      the initial gap divided by `1 + frames * damping`. */
  lemma {:induction false} SettleGapBound(current: real, target: real, damping: real, frames: nat)
    requires 0.0 < damping <= 1.0
    ensures Weighted(Abs(target - Settle(current, target, damping, frames)), frames, damping)
            <= Abs(target - current)
  {
    if frames > 0 {
      SettleGapBound(current, target, damping, frames - 1);
      SettleGapStep(current, target, damping, frames - 1);
    }
  }

  /** A gap whose bound `gap * (1 + f)` is covered by `f` thresholds is below the threshold. */
  lemma BelowThreshold(gap: real, f: real, g0: real)
    requires gap >= 0.0 && f >= 0.0
    requires gap * (1.0 + f) <= g0 <= f * SnapThreshold
    ensures gap < SnapThreshold
  {
    if gap >= SnapThreshold {
      MulNonneg(gap - SnapThreshold, 1.0 + f);
    }
  }

  /** Convergence in finitely many frames: once `frames * damping` times the
      snap threshold covers the initial gap, the position is exactly the
      target. */
  lemma SettleConverges(current: real, target: real, damping: real, frames: nat)
    requires 0.0 < damping <= 1.0 && frames >= 1
    requires Abs(target - current) <= frames as real * damping * SnapThreshold
    ensures Settle(current, target, damping, frames) == target
  {
    SettleGapBound(current, target, damping, frames);
    var r := Settle(current, target, damping, frames);
    assert Weighted(Abs(target - r), frames, damping) == Abs(target - r) * (1.0 + frames as real * damping);
    assert r == LerpStep(Settle(current, target, damping, frames - 1), target, damping);
    if r != target {
      BelowThreshold(Abs(target - r), frames as real * damping, Abs(target - current));
    }
  }

  /** For positions inside [-1, 1] the number of frames to settle exactly on
      the target is proportional to `1 / damping`: 20000 / damping suffice. */
  lemma SettlesWithinFramesPerDamping(current: real, target: real, damping: real, frames: nat)
    requires -1.0 <= current <= 1.0 && -1.0 <= target <= 1.0
    requires 0.0 < damping <= 1.0 && frames as real * damping >= 20000.0
    ensures Settle(current, target, damping, frames) == target
  {
    assert frames >= 1;
    assert Abs(target - current) <= 2.0;
    SettleConverges(current, target, damping, frames);
  }

  // ---------------------------------------------------------------------
  // Read-out

  /** One requested axis of `getOffset`: the position scaled to pixels and
      clamped to the range. Within [-range, range]; exactly the scaled position
      while that lies in [-1, 1]. */
  function AxisOffset(current: real, range: real): (r: real)
    ensures range >= 0.0 ==> -range <= r <= range
    ensures range >= 0.0 && -1.0 <= current <= 1.0 ==> r == current * range
    ensures range < 0.0 ==> r == range
  {
    assert range >= 0.0 && -1.0 <= current <= 1.0 ==> -range <= current * range <= range by {
      if range >= 0.0 && -1.0 <= current <= 1.0 {
        MulNonneg(1.0 - current, range);
        MulNonneg(current + 1.0, range);
      }
    }
    Clamp(current * range, -range, range)
  }
}
