/**
 * The particle record, how generateParticles fills it from random draws,
 * and what one frame of each phase does to one particle and to the whole
 * population. The simulator class applies these in place; here they are
 * values, so their properties can be stated and proved as lemmas.
 */
module Particles {
  import opened Wrappers
  import opened RealArith
  import opened Kinematics
  import opened Statistics

  /** generateParticles always makes this many particles. */
  const POPULATION: nat := 200

  // Lerp rates of the phases.
  const DROP_RATE: real := 0.07
  const SCATTER_RATE: real := 0.08
  const HOLD_RATE: real := 0.1
  const CLUSTER_RATE: real := 0.03
  // Per-tick colour fade above the shrinking line.
  const COLOR_FADE: real := 0.15
  // Breathing amplitudes, scaling a sine or cosine in [-1, 1].
  const HOLD_BREATH: real := 0.05
  const WAIT_BREATH: real := 0.02
  /** Distance to a bin slot under which a clustered particle breathes. */
  const BREATH_RADIUS: real := 5.0

  /** One particle. The unused vx and the jitter phase are not modelled (see the breathing inputs). */
  datatype Particle = Particle(
    val: real,
    x: real, y: real,
    vy: real,
    binX: real, binY: real,
    colorStrength: real,
    colorDelay: real)

  function Vals(ps: seq<Particle>): (vs: seq<real>)
    ensures |vs| == |ps|
    ensures forall i :: 0 <= i < |ps| ==> vs[i] == ps[i].val
  {
    seq(|ps|, i requires 0 <= i < |ps| => ps[i].val)
  }

  /** Every colour strength lies in [0, 1]. */
  predicate ColoursInRange(ps: seq<Particle>)
  {
    forall i :: 0 <= i < |ps| ==> 0.0 <= ps[i].colorStrength <= 1.0
  }

  /** Moves that leave every colour strength alone keep them in range. */
  lemma SameColours(a: seq<Particle>, b: seq<Particle>)
    requires |a| == |b| && forall i :: 0 <= i < |a| ==> a[i].colorStrength == b[i].colorStrength
    ensures ColoursInRange(a) <==> ColoursInRange(b)
  {
  }

  // ---------------------------------------------------------------------
  // Generation

  /** A Math.random() value. */
  predicate Uniform(u: real)
  {
    0.0 <= u < 1.0
  }

  /**
   * The random inputs of one particle: the Box-Muller sample
   * sqrt(-2 ln u) cos(2 pi v), a standard normal N(0, 1) value before the
   * bias is added, and three uniform draws.
   */
  datatype Draw = Draw(gauss: real, height: real, speed: real, delay: real)

  predicate DrawOk(d: Draw)
  {
    Uniform(d.height) && Uniform(d.speed) && Uniform(d.delay)
  }

  /** A new particle: above the canvas, falling, full colour, with a reveal delay below half a unit. */
  function Spawn(z: real, d: Draw): (p: Particle)
    ensures p.val == d.gauss + z
    ensures p.x == 0.0 && p.binX == 0.0 && p.binY == 0.0 && p.colorStrength == 1.0
    ensures DrawOk(d) ==> -220.0 < p.y <= -20.0
    ensures DrawOk(d) ==> 5.6 <= p.vy < 12.6
    ensures DrawOk(d) ==> 0.0 <= p.colorDelay < 0.5
  {
    Particle(d.gauss + z, 0.0, -20.0 - d.height * 200.0, (8.0 + d.speed * 10.0) * 0.7,
             0.0, 0.0, 1.0, d.delay * 0.5)
  }

  /** The population generateParticles builds from one bias and one draw per particle. */
  function SpawnAll(z: real, draws: seq<Draw>): (ps: seq<Particle>)
    ensures |ps| == |draws|
    ensures forall i :: 0 <= i < |draws| ==> ps[i] == Spawn(z, draws[i])
  {
    seq(|draws|, i requires 0 <= i < |draws| => Spawn(z, draws[i]))
  }

  /** Two populations with the same values, particle by particle, have the same value sequence. */
  lemma SameVals(a: seq<Particle>, b: seq<Particle>)
    requires |a| == |b| && forall i :: 0 <= i < |a| ==> a[i].val == b[i].val
    ensures Vals(a) == Vals(b)
  {
  }

  /** The rejection test of the bias loop: keep drawing while this holds. */
  predicate RejectsBias(z: real)
    ensures RejectsBias(z) <==> Abs(z) >= 0.2 || Abs(z) <= 0.05
  {
    z >= 0.2 || z <= -0.2 || (z <= 0.05 && z >= -0.05)
  }

  /** The loop starts from 0, which is rejected; a uniform draw is accepted exactly when 0.05 < z < 0.2. */
  lemma AcceptedBias(z: real)
    ensures RejectsBias(0.0)
    ensures Uniform(z) ==> (!RejectsBias(z) <==> 0.05 < z && z < 0.2)
  {
  }

  /**
   * The bias loop over a finite supply of draws: the first accepted draw,
   * or None when every draw is rejected (the source would keep drawing).
   */
  method PickBias(draws: seq<real>) returns (z: Option<real>)
    ensures z.Some? <==> exists k :: 0 <= k < |draws| && !RejectsBias(draws[k])
    ensures z.Some? ==> exists k :: 0 <= k < |draws| && draws[k] == z.value
                          && !RejectsBias(draws[k])
                          && forall j :: 0 <= j < k ==> RejectsBias(draws[j])
  {
    var cur := 0.0;
    var k := 0;
    while RejectsBias(cur) && k < |draws|
      invariant 0 <= k <= |draws|
      invariant forall j :: 0 <= j < k - 1 ==> RejectsBias(draws[j])
      invariant k > 0 ==> cur == draws[k - 1]
      invariant k == 0 ==> cur == 0.0
    {
      cur := draws[k];
      k := k + 1;
    }
    if RejectsBias(cur) {
      z := None;
      assert forall j :: 0 <= j < |draws| ==> RejectsBias(draws[j]);
    } else {
      z := Some(cur);
      assert draws[k - 1] == cur;
    }
  }

  // ---------------------------------------------------------------------
  // DROP

  /** The particle reaches the floor during this frame. */
  predicate Settles(p: Particle, floorY: real)
  {
    p.y + p.vy >= floorY
  }

  /**
   * One DROP frame: x snaps to its target when it is exactly 0 and
   * otherwise closes 7% of the gap; y falls by vy and is clamped at the floor.
   */
  function DropMove(p: Particle, w: real, floorY: real): (q: Particle)
    ensures q.(x := p.x, y := p.y) == p
    ensures q.y <= floorY
    ensures q.y == floorY <==> Settles(p, floorY)
    ensures q.y == Rise(p.y, p.vy, floorY)
    ensures p.x == 0.0 ==> q.x == MapX(p.val, w)
    ensures p.x != 0.0 ==> q.x - MapX(p.val, w) == 0.93 * (p.x - MapX(p.val, w))
  {
    var y := p.y + p.vy;
    p.(x := if p.x == 0.0 then MapX(p.val, w) else Lerp(p.x, MapX(p.val, w), DROP_RATE),
       y := if y >= floorY then floorY else y)
  }

  function DropAll(ps: seq<Particle>, w: real, floorY: real): seq<Particle>
  {
    seq(|ps|, i requires 0 <= i < |ps| => DropMove(ps[i], w, floorY))
  }

  /** settledCount of one DROP frame. */
  function CountSettled(ps: seq<Particle>, floorY: real): (r: nat)
    ensures r <= |ps|
  {
    if |ps| == 0 then 0
    else CountSettled(ps[..|ps| - 1], floorY) + (if Settles(ps[|ps| - 1], floorY) then 1 else 0)
  }

  /** DROP ends once strictly more than 95% of the particles settle in one frame. */
  predicate DropDone(ps: seq<Particle>, floorY: real)
    ensures DropDone(ps, floorY) <==> 20 * CountSettled(ps, floorY) > 19 * |ps|
  {
    (CountSettled(ps, floorY) as real) > (|ps| as real) * 0.95
  }

  lemma {:induction false} CountSettledAll(ps: seq<Particle>, floorY: real)
    ensures CountSettled(ps, floorY) == |ps| <==> forall i :: 0 <= i < |ps| ==> Settles(ps[i], floorY)
  {
    if |ps| > 0 {
      var init := ps[..|ps| - 1];
      CountSettledAll(init, floorY);
      assert forall i :: 0 <= i < |init| ==> init[i] == ps[i];
    }
  }

  /**
   * DROP never ends with no particles, and it does end once every particle
   * reaches the floor in the same frame.
   */
  lemma DropDoneWhenAllSettle(ps: seq<Particle>, floorY: real)
    ensures |ps| == 0 ==> !DropDone(ps, floorY)
    ensures |ps| > 0 && (forall i :: 0 <= i < |ps| ==> Settles(ps[i], floorY)) ==> DropDone(ps, floorY)
  {
    CountSettledAll(ps, floorY);
  }

  /** n DROP frames of one particle. */
  function DropIter(p: Particle, w: real, floorY: real, n: nat): Particle
  {
    if n == 0 then p else DropMove(DropIter(p, w, floorY, n - 1), w, floorY)
  }

  /** Over n frames y rises by vy per frame, capped at the floor, and vy never changes. */
  lemma {:induction false} DropIterRise(p: Particle, w: real, floorY: real, n: nat)
    ensures DropIter(p, w, floorY, n).vy == p.vy
    ensures DropIter(p, w, floorY, n).y == RiseIter(p.y, p.vy, floorY, n)
  {
    if n > 0 {
      DropIterRise(p, w, floorY, n - 1);
    }
  }

  /**
   * A particle that starts above the floor is at min(floorY, y + n vy)
   * after n frames, so it lands once n vy covers the gap, and stays.
   */
  lemma DropIterFalls(p: Particle, w: real, floorY: real, n: nat)
    requires p.y <= floorY && p.vy >= 0.0
    ensures p.y + (n as real) * p.vy < floorY ==> DropIter(p, w, floorY, n).y == p.y + (n as real) * p.vy
    ensures p.y + (n as real) * p.vy >= floorY ==> DropIter(p, w, floorY, n).y == floorY
  {
    DropIterRise(p, w, floorY, n);
    RiseIterClosedForm(p.y, p.vy, floorY, n);
  }

  // ---------------------------------------------------------------------
  // SCATTER

  /** The top of the shrinking threshold line on a canvas of height h. */
  function LineTop(h: real, lp: real): (y: real)
    ensures lp == 0.0 ==> y == h
    ensures lp == 1.0 ==> y == 0.0
    ensures h >= 0.0 && 0.0 <= lp <= 1.0 ==> 0.0 <= y <= h
  {
    if h >= 0.0 && 0.0 <= lp <= 1.0 then
      MulNonNeg(h, lp);
      MulNonNeg(h, 1.0 - lp);
      assert Mul(h, 1.0 - lp) == h - h * lp;
      h - h * lp
    else
      h - h * lp
  }

  /**
   * One SCATTER frame. A particle above the shrinking line loses 0.15 of
   * its colour (floored at 0). Once the line is nearly gone it falls
   * toward (mapX(val), floorY) at rate 0.08; before that it holds its bin
   * at rate 0.1 and breathes by (dx, dy) times 0.05.
   */
  function ScatterMove(p: Particle, w: real, floorY: real, lineTopY: real, dropping: bool,
                       dx: real, dy: real): (q: Particle)
    ensures q.(x := p.x, y := p.y, colorStrength := p.colorStrength) == p
    ensures p.y < lineTopY ==> q.colorStrength == Fade(p.colorStrength, COLOR_FADE)
    ensures p.y >= lineTopY ==> q.colorStrength == p.colorStrength
    ensures q.colorStrength != p.colorStrength ==> p.y < lineTopY
    ensures 0.0 <= p.colorStrength <= 1.0 ==> 0.0 <= q.colorStrength <= p.colorStrength
    ensures dropping ==> q.x - MapX(p.val, w) == 0.92 * (p.x - MapX(p.val, w))
    ensures dropping ==> q.y - floorY == 0.92 * (p.y - floorY)
    ensures !dropping ==> q.x - HOLD_BREATH * dx - p.binX == 0.9 * (p.x - p.binX)
    ensures !dropping ==> q.y - HOLD_BREATH * dy - p.binY == 0.9 * (p.y - p.binY)
  {
    var cs := if p.y < lineTopY then Fade(p.colorStrength, COLOR_FADE) else p.colorStrength;
    if dropping then
      p.(x := Lerp(p.x, MapX(p.val, w), SCATTER_RATE), y := Lerp(p.y, floorY, SCATTER_RATE),
         colorStrength := cs)
    else
      p.(x := Lerp(p.x, p.binX, HOLD_RATE) + dx * HOLD_BREATH,
         y := Lerp(p.y, p.binY, HOLD_RATE) + dy * HOLD_BREATH,
         colorStrength := cs)
  }

  function ScatterAll(ps: seq<Particle>, w: real, floorY: real, lineTopY: real, dropping: bool,
                      dxs: seq<real>, dys: seq<real>): seq<Particle>
    requires |dxs| == |ps| && |dys| == |ps|
  {
    seq(|ps|, i requires 0 <= i < |ps| => ScatterMove(ps[i], w, floorY, lineTopY, dropping, dxs[i], dys[i]))
  }

  /**
   * A SCATTER frame fades the colour of every particle above the line by
   * 0.15 (floored at 0) and leaves the others alone, so it keeps every
   * colour strength in [0, 1] and never raises one.
   */
  lemma ScatterKeepsColour(ps: seq<Particle>, w: real, floorY: real, lineTopY: real, dropping: bool,
                           dxs: seq<real>, dys: seq<real>)
    requires |dxs| == |ps| && |dys| == |ps|
    requires ColoursInRange(ps)
    ensures ColoursInRange(ScatterAll(ps, w, floorY, lineTopY, dropping, dxs, dys))
    ensures var r := ScatterAll(ps, w, floorY, lineTopY, dropping, dxs, dys);
      forall i :: 0 <= i < |ps| ==>
        && r[i].colorStrength <= ps[i].colorStrength
        && (r[i].colorStrength < ps[i].colorStrength ==> ps[i].y < lineTopY)
        && (ps[i].y < lineTopY ==> r[i].colorStrength == Fade(ps[i].colorStrength, COLOR_FADE))
        && (ps[i].y >= lineTopY ==> r[i].colorStrength == ps[i].colorStrength)
  {
  }

  /** Within one pixel of the SCATTER target on both axes. */
  predicate AtScatterTarget(p: Particle, w: real, floorY: real)
    ensures AtScatterTarget(p, w, floorY) <==>
      && MapX(p.val, w) - 1.0 <= p.x <= MapX(p.val, w) + 1.0
      && floorY - 1.0 <= p.y <= floorY + 1.0
  {
    Abs(p.x - MapX(p.val, w)) <= 1.0 && Abs(p.y - floorY) <= 1.0
  }

  /** readyToSwitch: every particle is at its SCATTER target. */
  predicate AllAtTarget(ps: seq<Particle>, w: real, floorY: real)
    ensures AllAtTarget(ps, w, floorY) <==>
      forall i :: 0 <= i < |ps| ==> Abs(ps[i].x - MapX(ps[i].val, w)) <= 1.0 && Abs(ps[i].y - floorY) <= 1.0
  {
    forall i :: 0 <= i < |ps| ==> AtScatterTarget(ps[i], w, floorY)
  }

  /**
   * While dropping, a SCATTER frame brings each particle strictly closer to
   * its target on every axis where it is not there yet, and one already
   * within a pixel stays within a pixel.
   */
  lemma ScatterDropApproaches(p: Particle, w: real, floorY: real, lineTopY: real, dx: real, dy: real)
    ensures Abs(ScatterMove(p, w, floorY, lineTopY, true, dx, dy).x - MapX(p.val, w))
            <= Abs(p.x - MapX(p.val, w))
    ensures Abs(ScatterMove(p, w, floorY, lineTopY, true, dx, dy).y - floorY) <= Abs(p.y - floorY)
    ensures p.x != MapX(p.val, w) ==>
            Abs(ScatterMove(p, w, floorY, lineTopY, true, dx, dy).x - MapX(p.val, w))
            < Abs(p.x - MapX(p.val, w))
    ensures p.y != floorY ==> Abs(ScatterMove(p, w, floorY, lineTopY, true, dx, dy).y - floorY) < Abs(p.y - floorY)
    ensures AtScatterTarget(p, w, floorY) ==>
            AtScatterTarget(ScatterMove(p, w, floorY, lineTopY, true, dx, dy), w, floorY)
  {
    LerpContracts(p.x, MapX(p.val, w), SCATTER_RATE);
    LerpContracts(p.y, floorY, SCATTER_RATE);
  }

  // ---------------------------------------------------------------------
  // Bins

  /**
   * The position of value i inside its bin: how many earlier values fall
   * on the same side of the threshold (the forEach index in negs / poss).
   */
  function Rank(vs: seq<real>, t: real, i: nat): (k: nat)
    requires i < |vs|
    ensures k <= i
  {
    if vs[i] >= t then CountPos(vs[..i], t) else CountNeg(vs[..i], t)
  }

  /** Within a bin, ranks strictly increase in array order. */
  lemma RanksIncrease(vs: seq<real>, t: real, i: nat, j: nat)
    requires i < j < |vs|
    requires vs[i] >= t <==> vs[j] >= t
    ensures Rank(vs, t, i) < Rank(vs, t, j)
  {
    assert vs[..i + 1][..i] == vs[..i];
    CountPrefixMonotone(vs, t, i + 1, j);
  }

  /** A rank is below the size of its bin, so the ranks of a bin are 0 .. count - 1. */
  lemma RankBelowCount(vs: seq<real>, t: real, j: nat)
    requires j < |vs|
    ensures vs[j] >= t ==> Rank(vs, t, j) < CountPos(vs, t)
    ensures vs[j] < t ==> Rank(vs, t, j) < CountNeg(vs, t)
  {
    assert vs[..j + 1][..j] == vs[..j];
    assert vs[..|vs|] == vs;
    CountPrefixMonotone(vs, t, j + 1, |vs|);
  }

  /** Put a particle in the slot of the given rank of a bin. */
  function Place(p: Particle, rank: nat, center: real, spread: real, floorY: real): Particle
  {
    p.(binX := BinX(center, spread), binY := BinY(floorY, rank))
  }

  /** The bin layout of REVEAL and CLUSTER: each particle's slot in the bin on its side of t. */
  function PlaceAll(ps: seq<Particle>, t: real, negCenter: real, posCenter: real, floorY: real,
                    negSpread: seq<real>, posSpread: seq<real>): (r: seq<Particle>)
    requires |negSpread| >= |ps| && |posSpread| >= |ps|
    ensures |r| == |ps|
    ensures forall i :: 0 <= i < |ps| ==> r[i].(binX := ps[i].binX, binY := ps[i].binY) == ps[i]
  {
    var vs := Vals(ps);
    seq(|ps|, i requires 0 <= i < |ps| =>
      var k := Rank(vs, t, i);
      if ps[i].val >= t then Place(ps[i], k, posCenter, posSpread[k], floorY)
      else Place(ps[i], k, negCenter, negSpread[k], floorY))
  }

  /**
   * One of the layout's two forEach passes: the particles on one side of t
   * (at or above it when positive) get their slots, the others are left alone.
   */
  function PlaceSide(ps: seq<Particle>, positive: bool, t: real, center: real, floorY: real,
                     spread: seq<real>): (r: seq<Particle>)
    requires |spread| >= |ps|
    ensures |r| == |ps|
  {
    var vs := Vals(ps);
    seq(|ps|, i requires 0 <= i < |ps| =>
      if (ps[i].val >= t) == positive then Place(ps[i], Rank(vs, t, i), center, spread[Rank(vs, t, i)], floorY)
      else ps[i])
  }

  /** How many of the values lie on the given side of t. */
  function SideCount(vs: seq<real>, t: real, positive: bool): nat
  {
    if positive then CountPos(vs, t) else CountNeg(vs, t)
  }

  /** One step of a bin's forEach: the i-th particle takes the slot numbered by the count so far. */
  lemma PlaceSideStep(ps: seq<Particle>, positive: bool, t: real, center: real, floorY: real,
                      spread: seq<real>, i: nat)
    requires i < |ps| && |spread| >= |ps|
    ensures SideCount(Vals(ps)[..i], t, positive) <= i
    ensures PlaceSide(ps, positive, t, center, floorY, spread)[i]
         == if (ps[i].val >= t) == positive
            then Place(ps[i], SideCount(Vals(ps)[..i], t, positive), center,
                       spread[SideCount(Vals(ps)[..i], t, positive)], floorY)
            else ps[i]
    ensures SideCount(Vals(ps)[..i + 1], t, positive)
         == SideCount(Vals(ps)[..i], t, positive) + (if (ps[i].val >= t) == positive then 1 else 0)
  {
    var vs := Vals(ps);
    assert vs[..i + 1][..i] == vs[..i];
    if (ps[i].val >= t) == positive {
      assert Rank(vs, t, i) == SideCount(vs[..i], t, positive);
    }
    if positive {
      assert CountPos(vs[..i], t) <= i;
    } else {
      assert CountNeg(vs[..i], t) <= i;
    }
  }

  /** The negative pass followed by the positive pass lays out both bins. */
  lemma TwoPassLayout(ps: seq<Particle>, t: real, negCenter: real, posCenter: real, floorY: real,
                      negSpread: seq<real>, posSpread: seq<real>)
    requires |negSpread| >= |ps| && |posSpread| >= |ps|
    ensures PlaceSide(PlaceSide(ps, false, t, negCenter, floorY, negSpread), true, t, posCenter, floorY, posSpread)
         == PlaceAll(ps, t, negCenter, posCenter, floorY, negSpread, posSpread)
  {
    var mid := PlaceSide(ps, false, t, negCenter, floorY, negSpread);
    SameVals(ps, mid);
  }

  /** Within a bin, a later particle gets a strictly higher slot. */
  lemma PlaceAllStacks(ps: seq<Particle>, t: real, negCenter: real, posCenter: real, floorY: real,
                       negSpread: seq<real>, posSpread: seq<real>, i: nat, j: nat)
    requires |negSpread| >= |ps| && |posSpread| >= |ps|
    requires i < j < |ps|
    requires ps[i].val >= t <==> ps[j].val >= t
    ensures PlaceAll(ps, t, negCenter, posCenter, floorY, negSpread, posSpread)[j].binY
          < PlaceAll(ps, t, negCenter, posCenter, floorY, negSpread, posSpread)[i].binY
  {
    var vs := Vals(ps);
    RanksIncrease(vs, t, i, j);
    BinYStrictlyDecreasing(floorY, Rank(vs, t, i), Rank(vs, t, j));
  }

  /**
   * Each particle's slot is at or above one radius over the floor but
   * below the top of its bin (two pixels per particle of the bin), and
   * within BIN_SPREAD of the centre of the bin on its side of t.
   */
  lemma PlaceAllSlot(ps: seq<Particle>, t: real, negCenter: real, posCenter: real, floorY: real,
                     negSpread: seq<real>, posSpread: seq<real>, j: nat)
    requires |negSpread| >= |ps| && |posSpread| >= |ps|
    requires forall k :: 0 <= k < |ps| ==> -1.0 <= negSpread[k] <= 1.0 && -1.0 <= posSpread[k] <= 1.0
    requires j < |ps|
    ensures PlaceAll(ps, t, negCenter, posCenter, floorY, negSpread, posSpread)[j].binY <= floorY - PARTICLE_RADIUS
    ensures var q := PlaceAll(ps, t, negCenter, posCenter, floorY, negSpread, posSpread)[j];
      ps[j].val >= t ==>
        q.binY > floorY - PARTICLE_RADIUS - 2.0 * (CountPos(Vals(ps), t) as real)
        && Abs(q.binX - posCenter) <= BIN_SPREAD
    ensures var q := PlaceAll(ps, t, negCenter, posCenter, floorY, negSpread, posSpread)[j];
      ps[j].val < t ==>
        q.binY > floorY - PARTICLE_RADIUS - 2.0 * (CountNeg(Vals(ps), t) as real)
        && Abs(q.binX - negCenter) <= BIN_SPREAD
  {
    var vs := Vals(ps);
    var kj := Rank(vs, t, j);
    RankBelowCount(vs, t, j);
    BinYStrictlyDecreasing(floorY, 0, kj + 1);
    if ps[j].val >= t {
      BinXNearCenter(posCenter, posSpread[kj]);
    } else {
      BinXNearCenter(negCenter, negSpread[kj]);
    }
  }

  // ---------------------------------------------------------------------
  // REVEAL and CLUSTER

  /**
   * One REVEAL frame after the bins are laid out: once colorMix passes 0.5
   * the particle closes 3% of the gap to its slot; before that it only
   * breathes horizontally by dx times 0.02.
   */
  function RevealMove(p: Particle, clustering: bool, dx: real): (q: Particle)
    ensures q.(x := p.x, y := p.y) == p
    ensures clustering ==> q.x - p.binX == 0.97 * (p.x - p.binX) && q.y - p.binY == 0.97 * (p.y - p.binY)
    ensures !clustering ==> q.y == p.y && q.x - p.x == WAIT_BREATH * dx
  {
    if clustering then p.(x := Lerp(p.x, p.binX, CLUSTER_RATE), y := Lerp(p.y, p.binY, CLUSTER_RATE))
    else p.(x := p.x + dx * WAIT_BREATH)
  }

  function RevealAll(ps: seq<Particle>, clustering: bool, dxs: seq<real>): seq<Particle>
    requires |dxs| == |ps|
  {
    seq(|ps|, i requires 0 <= i < |ps| => RevealMove(ps[i], clustering, dxs[i]))
  }

  /** The reveal's end resets every colour strength to 1 and moves nothing. */
  function FullColour(ps: seq<Particle>): (r: seq<Particle>)
    ensures |r| == |ps|
    ensures forall i :: 0 <= i < |ps| ==> r[i].colorStrength == 1.0 && r[i].(colorStrength := ps[i].colorStrength) == ps[i]
  {
    seq(|ps|, i requires 0 <= i < |ps| => ps[i].(colorStrength := 1.0))
  }

  /** Within BREATH_RADIUS of the slot on both axes. */
  predicate NearSlot(p: Particle)
    ensures NearSlot(p) <==>
      && p.binX - BREATH_RADIUS < p.x < p.binX + BREATH_RADIUS
      && p.binY - BREATH_RADIUS < p.y < p.binY + BREATH_RADIUS
  {
    Abs(p.x - p.binX) < BREATH_RADIUS && Abs(p.y - p.binY) < BREATH_RADIUS
  }

  /** One CLUSTER frame: close 3% of the gap to the slot, then breathe by 0.05 once near it. */
  function ClusterMove(p: Particle, dx: real, dy: real): (q: Particle)
    ensures q.(x := p.x, y := p.y) == p
  {
    var m := p.(x := Lerp(p.x, p.binX, CLUSTER_RATE), y := Lerp(p.y, p.binY, CLUSTER_RATE));
    if NearSlot(m) then m.(x := m.x + dx * HOLD_BREATH, y := m.y + dy * HOLD_BREATH) else m
  }

  function ClusterAll(ps: seq<Particle>, dxs: seq<real>, dys: seq<real>): seq<Particle>
    requires |dxs| == |ps| && |dys| == |ps|
  {
    seq(|ps|, i requires 0 <= i < |ps| => ClusterMove(ps[i], dxs[i], dys[i]))
  }

  /**
   * A CLUSTER frame with breathing offsets in [-1, 1]: a particle far from
   * its slot closes 3% of the gap on each axis, and one that ends near its
   * slot is at most the breathing amplitude further out than BREATH_RADIUS.
   */
  lemma ClusterMoveSettles(p: Particle, dx: real, dy: real)
    requires -1.0 <= dx <= 1.0 && -1.0 <= dy <= 1.0
    ensures var q := ClusterMove(p, dx, dy);
      (Abs(q.x - p.binX) < BREATH_RADIUS + HOLD_BREATH && Abs(q.y - p.binY) < BREATH_RADIUS + HOLD_BREATH)
      || (q.x - p.binX == 0.97 * (p.x - p.binX) && q.y - p.binY == 0.97 * (p.y - p.binY))
    ensures var q := ClusterMove(p, dx, dy);
      Abs(q.x - p.binX) <= Abs(p.x - p.binX) + HOLD_BREATH && Abs(q.y - p.binY) <= Abs(p.y - p.binY) + HOLD_BREATH
  {
    LerpContracts(p.x, p.binX, CLUSTER_RATE);
    LerpContracts(p.y, p.binY, CLUSTER_RATE);
  }
}
