/**
 * The scalar rules the simulator applies every frame: the linear
 * interpolation ("lerp") step, the value-to-pixel map, the bin layout,
 * the reveal colour-blend factor and the clamped per-tick counters.
 */
module Kinematics {
  import opened RealArith

  const BASELINE_OFFSET: real := 100.0
  const VIEW_RANGE: real := 2.0
  const PARTICLE_RADIUS: real := 3.0
  const STACK_OVERLAP: real := 3.0
  /** Horizontal half-width of a bin: the sine spread is scaled by 24 pixels. */
  const BIN_SPREAD: real := 24.0

  /** One lerp step: move the fraction r of the way from p to t. */
  function Lerp(p: real, t: real, r: real): (q: real)
    ensures q - t == (1.0 - r) * (p - t)
  {
    p + (t - p) * r
  }

  /** With 0 <= r <= 1 a lerp step lands between the start and the target. */
  lemma LerpNoOvershoot(p: real, t: real, r: real)
    requires 0.0 <= r <= 1.0
    ensures p <= t ==> p <= Lerp(p, t, r) <= t
    ensures t <= p ==> t <= Lerp(p, t, r) <= p
  {
    if p <= t {
      MulNonNeg(t - p, r);
      MulNonNeg(t - p, 1.0 - r);
    } else {
      MulNonNeg(p - t, r);
      MulNonNeg(p - t, 1.0 - r);
    }
  }

  /** The distance to the target shrinks by exactly the factor 1 - r. */
  lemma LerpContracts(p: real, t: real, r: real)
    requires 0.0 <= r <= 1.0
    ensures Abs(Lerp(p, t, r) - t) == (1.0 - r) * Abs(p - t)
    ensures Abs(Lerp(p, t, r) - t) <= Abs(p - t)
    ensures r > 0.0 && p != t ==> Abs(Lerp(p, t, r) - t) < Abs(p - t)
  {
    LerpNoOvershoot(p, t, r);
    if r > 0.0 && p < t {
      MulPos(r, t - p);
    } else if r > 0.0 && t < p {
      MulPos(r, p - t);
    }
  }

  /** x^n. */
  function Pow(x: real, n: nat): real
  {
    if n == 0 then 1.0 else x * Pow(x, n - 1)
  }

  /** n lerp steps toward a fixed target, as n frames of the same phase apply them. */
  function LerpIter(p: real, t: real, r: real, n: nat): real
  {
    if n == 0 then p else Lerp(LerpIter(p, t, r, n - 1), t, r)
  }

  /** After n frames the remaining distance is (1 - r)^n of the original one. */
  lemma {:induction false} LerpIterClosedForm(p: real, t: real, r: real, n: nat)
    ensures LerpIter(p, t, r, n) - t == Pow(1.0 - r, n) * (p - t)
  {
    if n > 0 {
      LerpIterClosedForm(p, t, r, n - 1);
      MulAssoc(1.0 - r, Pow(1.0 - r, n - 1), p - t);
    }
  }

  /** The value-to-pixel map: [-VIEW_RANGE, VIEW_RANGE] spans the canvas width w. */
  function MapX(v: real, w: real): (x: real)
    ensures w > 0.0 ==> (0.0 <= x <= w <==> -VIEW_RANGE <= v <= VIEW_RANGE)
  {
    (v / (VIEW_RANGE * 2.0) + 0.5) * w
  }

  /** mapX sends 0 to the centre and the ends of the view range to the edges. */
  lemma MapXLandmarks(w: real)
    ensures MapX(0.0, w) == w / 2.0
    ensures MapX(-VIEW_RANGE, w) == 0.0
    ensures MapX(VIEW_RANGE, w) == w
  {
  }

  /** On a canvas of positive width mapX is strictly increasing, so it keeps the order of values. */
  lemma MapXStrictlyIncreasing(u: real, v: real, w: real)
    requires w > 0.0 && u < v
    ensures MapX(u, w) < MapX(v, w)
  {
    MulPos((v - u) / 4.0, w);
    assert MapX(v, w) - MapX(u, w) == Mul((v - u) / 4.0, w);
  }

  /**
   * Vertical slot of the particle with the given rank in its bin: stacked
   * upward from one radius above the floor, diameter / STACK_OVERLAP apart.
   */
  function BinY(floorY: real, rank: nat): (y: real)
    ensures y <= floorY - PARTICLE_RADIUS
  {
    floorY - (rank as real) * (PARTICLE_RADIUS * 2.0) / STACK_OVERLAP - PARTICLE_RADIUS
  }

  /** A higher rank sits strictly higher (smaller y), two pixels per rank. */
  lemma BinYStrictlyDecreasing(floorY: real, i: nat, j: nat)
    requires i < j
    ensures BinY(floorY, j) < BinY(floorY, i)
    ensures BinY(floorY, i) - BinY(floorY, j) == 2.0 * ((j - i) as real)
  {
  }

  /** Horizontal slot: the bin centre plus a spread in [-1, 1] scaled by BIN_SPREAD. */
  function BinX(center: real, spread: real): real
  {
    center + spread * BIN_SPREAD
  }

  /** The slot is within BIN_SPREAD of the centre exactly when the spread is in [-1, 1]. */
  lemma BinXNearCenter(center: real, spread: real)
    ensures Abs(BinX(center, spread) - center) <= BIN_SPREAD <==> -1.0 <= spread <= 1.0
  {
  }

  function Clamp01(x: real): (r: real)
    ensures 0.0 <= r <= 1.0
    ensures 0.0 <= x <= 1.0 ==> r == x
  {
    if x < 0.0 then 0.0 else if x > 1.0 then 1.0 else x
  }

  /** The reveal colour-blend factor: (colorMix - delay) * 2, clamped to [0, 1]. */
  function RevealBlend(colorMix: real, delay: real): (t: real)
    ensures 0.0 <= t <= 1.0
  {
    Clamp01((colorMix - delay) * 2.0)
  }

  /**
   * The blend is grey until colorMix passes the particle's delay, grows
   * with colorMix, and is full half a unit after the delay; at the end of
   * the reveal (colorMix 1.5) every delay below 1 gives full colour.
   */
  lemma RevealBlendShape(cm: real, cm2: real, delay: real)
    ensures cm <= delay ==> RevealBlend(cm, delay) == 0.0
    ensures cm >= delay + 0.5 ==> RevealBlend(cm, delay) == 1.0
    ensures cm <= cm2 ==> RevealBlend(cm, delay) <= RevealBlend(cm2, delay)
    ensures delay <= 1.0 ==> RevealBlend(1.5, delay) == 1.0
  {
  }

  /** Subtract a per-tick step, floored at 0 (Math.max(0, v - step)). */
  function Fade(v: real, step: real): (r: real)
    ensures r >= 0.0
    ensures step >= 0.0 && v >= 0.0 ==> r <= v
    ensures r > 0.0 ==> r == v - step
    ensures v - step >= 0.0 ==> r == v - step
  {
    if v - step < 0.0 then 0.0 else v - step
  }

  /** Add a per-tick step, capped (Math.min(cap, v + step)). */
  function Rise(v: real, step: real, cap: real): (r: real)
    ensures r <= cap
    ensures step >= 0.0 && v <= cap ==> v <= r
    ensures r < cap ==> r == v + step
    ensures v + step <= cap ==> r == v + step
  {
    if v + step > cap then cap else v + step
  }

  function FadeIter(v: real, step: real, n: nat): real
  {
    if n == 0 then v else Fade(FadeIter(v, step, n - 1), step)
  }

  function RiseIter(v: real, step: real, cap: real, n: nat): real
  {
    if n == 0 then v else Rise(RiseIter(v, step, cap, n - 1), step, cap)
  }

  /** n fading ticks from v >= 0 give max(0, v - n step). */
  lemma {:induction false} FadeIterClosedForm(v: real, step: real, n: nat)
    requires v >= 0.0 && step >= 0.0
    ensures v - (n as real) * step >= 0.0 ==> FadeIter(v, step, n) == v - (n as real) * step
    ensures v - (n as real) * step < 0.0 ==> FadeIter(v, step, n) == 0.0
  {
    if n > 0 {
      FadeIterClosedForm(v, step, n - 1);
      assert (n as real) * step == ((n - 1) as real) * step + step;
    }
  }

  /** n rising ticks from v <= cap give min(cap, v + n step). */
  lemma {:induction false} RiseIterClosedForm(v: real, step: real, cap: real, n: nat)
    requires v <= cap && step >= 0.0
    ensures v + (n as real) * step <= cap ==> RiseIter(v, step, cap, n) == v + (n as real) * step
    ensures v + (n as real) * step > cap ==> RiseIter(v, step, cap, n) == cap
  {
    if n > 0 {
      RiseIterClosedForm(v, step, cap, n - 1);
      assert (n as real) * step == ((n - 1) as real) * step + step;
    }
  }

  /**
   * Phase lengths: the scatter line (0.04 per tick from 1) is gone after 25
   * ticks, and the reveal colour timer (0.015 per tick from 0) reaches 1.5
   * after 100 ticks, while the reveal line (0.05 per tick) is full after 20.
   */
  lemma PhaseLengths()
    ensures FadeIter(1.0, 0.04, 24) > 0.0 && FadeIter(1.0, 0.04, 25) == 0.0
    ensures RiseIter(0.0, 0.05, 1.0, 19) < 1.0 && RiseIter(0.0, 0.05, 1.0, 20) == 1.0
    ensures RiseIter(0.0, 0.015, 1.5, 99) < 1.5 && RiseIter(0.0, 0.015, 1.5, 100) == 1.5
  {
    FadeIterClosedForm(1.0, 0.04, 24);
    FadeIterClosedForm(1.0, 0.04, 25);
    RiseIterClosedForm(0.0, 0.05, 1.0, 19);
    RiseIterClosedForm(0.0, 0.05, 1.0, 20);
    RiseIterClosedForm(0.0, 0.015, 1.5, 99);
    RiseIterClosedForm(0.0, 0.015, 1.5, 100);
  }
}
