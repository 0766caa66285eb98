/**
 * The AdaBinSim phase controller: the particle array and the animation
 * record that the render loop mutates in place each frame, the method
 * switch request, and the DROP / SCATTER / REVEAL / CLUSTER frame updates.
 */
module Simulator {
  import opened Wrappers
  import opened RealArith
  import opened Kinematics
  import opened Statistics
  import opened Particles

  /** The animation modes that are ever entered (the WAIT named in a comment never is). */
  datatype Mode = Drop | Scatter | Reveal | Cluster

  /** The logical canvas size once it has been measured; both sides are positive. */
  datatype Size = Size(w: real, h: real)

  /**
   * The sines and cosines a frame needs, supplied by the caller: the
   * breathing offsets sin/cos(t + jitterPhase) per particle, and the
   * horizontal spreads sin(rank * 123.1) and sin(rank * 321.3) per bin rank.
   */
  datatype Wobble = Wobble(breatheX: seq<real>, breatheY: seq<real>, negSpread: seq<real>, posSpread: seq<real>)

  predicate Fits(wb: Wobble, n: nat)
  {
    && |wb.breatheX| == n && |wb.breatheY| == n && |wb.negSpread| == n && |wb.posSpread| == n
    && (forall i :: 0 <= i < n ==> -1.0 <= wb.breatheX[i] <= 1.0 && -1.0 <= wb.breatheY[i] <= 1.0)
    && (forall i :: 0 <= i < n ==> -1.0 <= wb.negSpread[i] <= 1.0 && -1.0 <= wb.posSpread[i] <= 1.0)
  }

  /**
   * The REVEAL and CLUSTER layout that the statistics of method name give:
   * the bins centred on beta - alpha and beta + alpha, split at the threshold.
   */
  ghost function BinLayout(ps: seq<Particle>, name: string, sd: real, w: real, floorY: real, wb: Wobble): seq<Particle>
    requires |ps| > 0 && IsStdDev(Vals(ps), sd) && Fits(wb, |ps|)
  {
    var p := Choose(Vals(ps), name, sd);
    PlaceAll(ps, p.threshold, MapX(p.beta - p.alpha, w), MapX(p.beta + p.alpha, w), floorY, wb.negSpread, wb.posSpread)
  }

  /** The bars a frame computes give exactly BinLayout. */
  lemma BinLayoutOfBars(ps: seq<Particle>, name: string, sd: real, w: real, floorY: real, wb: Wobble,
                        threshold: real, negBar: real, posBar: real)
    requires |ps| > 0 && IsStdDev(Vals(ps), sd) && Fits(wb, |ps|)
    requires var p := Choose(Vals(ps), name, sd);
      threshold == p.threshold && negBar == p.beta - p.alpha && posBar == p.beta + p.alpha
    ensures PlaceAll(ps, threshold, MapX(negBar, w), MapX(posBar, w), floorY, wb.negSpread, wb.posSpread)
         == BinLayout(ps, name, sd, w, floorY, wb)
  {
  }

  class AdaBinSim {
    var particles: array<Particle>
    /** The method whose statistics drive the frame (the React state `method`). */
    var methodName: string
    /** The highlighted tab, updated as soon as a switch is accepted. */
    var activeTab: string
    var mode: Mode
    var thresholdOpacity: real
    var lineProgress: real
    var colorMix: real
    /** null until the first accepted switch. */
    var targetMethod: Option<string>
    var visualThreshold: real

    ghost predicate Valid()
      reads this, particles
    {
      && 0.0 <= lineProgress <= 1.0
      && 0.0 <= thresholdOpacity <= 1.0
      && 0.0 <= colorMix <= 1.5
      && (mode == Scatter ==> targetMethod.Some?)
      && (particles.Length == 0 ==> mode == Drop && methodName == "standard")
      && ColoursInRange(particles[..])
    }

    constructor ()
      ensures Valid() && fresh(particles)
      ensures particles.Length == 0
      ensures methodName == "standard" && activeTab == "standard"
      ensures mode == Drop && targetMethod == None
      ensures thresholdOpacity == 1.0 && lineProgress == 1.0 && colorMix == 1.0 && visualThreshold == 0.0
    {
      particles := new Particle[0];
      methodName := "standard";
      activeTab := "standard";
      mode := Drop;
      thresholdOpacity := 1.0;
      lineProgress := 1.0;
      colorMix := 1.0;
      targetMethod := None;
      visualThreshold := 0.0;
    }

    /**
     * generateParticles: draw the bias (the first accepted draw), build
     * POPULATION particles from it and restart the DROP phase, whatever
     * the previous mode. The old array is replaced, not reused.
     */
    method Generate(biasDraws: seq<real>, draws: seq<Draw>)
      requires Valid()
      requires exists k :: 0 <= k < |biasDraws| && !RejectsBias(biasDraws[k])
      requires |draws| == POPULATION
      modifies this`particles, this`mode, this`thresholdOpacity
      ensures Valid() && fresh(particles)
      ensures particles.Length == POPULATION
      ensures exists k :: 0 <= k < |biasDraws| && !RejectsBias(biasDraws[k])
                && (forall j :: 0 <= j < k ==> RejectsBias(biasDraws[j]))
                && particles[..] == SpawnAll(biasDraws[k], draws)
      ensures mode == Drop && thresholdOpacity == 1.0
    {
      var bias := PickBias(biasDraws);
      var z := bias.value;
      var ps := new Particle[POPULATION];
      for i := 0 to POPULATION
        invariant forall k :: 0 <= k < i ==> ps[k] == Spawn(z, draws[k])
      {
        ps[i] := Spawn(z, draws[i]);
      }
      particles := ps;
      mode := Drop;
      thresholdOpacity := 1.0;
      assert particles[..] == SpawnAll(z, draws);
    }

    /**
     * switchMethod: ignored for the tab already active and during SCATTER
     * and DROP; otherwise the tab changes at once and a SCATTER toward the
     * new method starts. The particles and the method in use are untouched.
     */
    method SwitchMethod(m: string)
      requires Valid()
      modifies this`activeTab, this`mode, this`targetMethod
      ensures Valid()
      ensures old(m == activeTab || mode == Scatter || mode == Drop) ==>
                activeTab == old(activeTab) && mode == old(mode) && targetMethod == old(targetMethod)
      ensures !old(m == activeTab || mode == Scatter || mode == Drop) ==>
                activeTab == m && mode == Scatter && targetMethod == Some(m)
    {
      if m == activeTab || mode == Scatter || mode == Drop {
        return;
      }
      activeTab := m;
      mode := Scatter;
      targetMethod := Some(m);
    }

    /**
     * One DROP frame: every particle moves as DropMove says, and the mode
     * becomes CLUSTER exactly when more than 95% of them settled.
     */
    method DropStep(w: real, floorY: real)
      requires Valid() && mode == Drop
      modifies particles, this`mode
      ensures Valid()
      ensures particles[..] == DropAll(old(particles[..]), w, floorY)
      ensures mode == (if DropDone(old(particles[..]), floorY) then Cluster else Drop)
    {
      var settled := DropParticles(w, floorY);
      if (settled as real) > (particles.Length as real) * 0.95 {
        mode := Cluster;
      }
    }

    /** The particle loop of a DROP frame, returning settledCount. */
    method DropParticles(w: real, floorY: real) returns (settled: nat)
      modifies particles
      ensures particles[..] == DropAll(old(particles[..]), w, floorY)
      ensures settled == CountSettled(old(particles[..]), floorY)
    {
      ghost var ps := particles[..];
      settled := 0;
      var i := 0;
      while i < particles.Length
        invariant 0 <= i <= particles.Length
        invariant settled == CountSettled(ps[..i], floorY)
        invariant forall k :: 0 <= k < i ==> particles[k] == DropMove(ps[k], w, floorY)
        invariant forall k :: i <= k < particles.Length ==> particles[k] == ps[k]
      {
        var p := particles[i];
        var targetX := MapX(p.val, w);
        var x := if p.x == 0.0 then targetX else p.x + (targetX - p.x) * DROP_RATE;
        var y := p.y + p.vy;
        if y >= floorY {
          y := floorY;
          settled := settled + 1;
        }
        particles[i] := p.(x := x, y := y);
        assert ps[..i + 1][..i] == ps[..i];
        i := i + 1;
      }
      assert ps[..i] == ps;
      assert particles[..] == DropAll(ps, w, floorY);
    }

    /**
     * One SCATTER frame: the threshold line shrinks and the labels fade;
     * particles fade above the line and fall toward their targets once the
     * line is nearly gone. When the line is gone and every particle is
     * within a pixel of its target, the new method takes over and REVEAL
     * starts.
     */
    method ScatterStep(w: real, h: real, floorY: real, wb: Wobble)
      requires Valid() && mode == Scatter && Fits(wb, particles.Length)
      modifies particles, this`lineProgress, this`thresholdOpacity, this`methodName, this`mode, this`colorMix
      ensures Valid()
      ensures var lp := Fade(old(lineProgress), 0.04);
        particles[..] == ScatterAll(old(particles[..]), w, floorY, LineTop(h, lp), lp <= 0.1, wb.breatheX, wb.breatheY)
      ensures var lp := Fade(old(lineProgress), 0.04);
        if lp <= 0.0 && AllAtTarget(particles[..], w, floorY) then
          && mode == Reveal && methodName == old(targetMethod).value
          && lineProgress == 0.0 && colorMix == 0.0 && thresholdOpacity == 1.0
        else
          && mode == Scatter && methodName == old(methodName) && colorMix == old(colorMix)
          && lineProgress == lp && thresholdOpacity == Fade(old(thresholdOpacity), 0.05)
    {
      ghost var ps := particles[..];
      lineProgress := Fade(lineProgress, 0.04);
      thresholdOpacity := Fade(thresholdOpacity, 0.05);
      var dropping := lineProgress <= 0.1;
      var lineTopY := LineTop(h, lineProgress);
      var ready := ScatterParticles(w, floorY, lineTopY, dropping, wb.breatheX, wb.breatheY);
      ghost var moved := particles[..];
      ScatterKeepsColour(ps, w, floorY, lineTopY, dropping, wb.breatheX, wb.breatheY);
      if ready && lineProgress <= 0.0 {
        methodName := targetMethod.value;
        mode := Reveal;
        lineProgress := 0.0;
        colorMix := 0.0;
        thresholdOpacity := 1.0;
      }
      assert particles[..] == moved;
    }

    /** The particle loop of a SCATTER frame; ready says whether every particle ended within a pixel of its target. */
    method ScatterParticles(w: real, floorY: real, lineTopY: real, dropping: bool, dxs: seq<real>, dys: seq<real>)
      returns (ready: bool)
      requires |dxs| == particles.Length && |dys| == particles.Length
      modifies particles
      ensures particles[..] == ScatterAll(old(particles[..]), w, floorY, lineTopY, dropping, dxs, dys)
      ensures ready == AllAtTarget(particles[..], w, floorY)
    {
      ghost var ps := particles[..];
      ghost var next := ScatterAll(ps, w, floorY, lineTopY, dropping, dxs, dys);
      ready := true;
      var i := 0;
      while i < particles.Length
        invariant 0 <= i <= particles.Length
        invariant forall k :: 0 <= k < i ==> particles[k] == next[k]
        invariant forall k :: i <= k < particles.Length ==> particles[k] == ps[k]
        invariant ready <==> forall k :: 0 <= k < i ==> AtScatterTarget(next[k], w, floorY)
      {
        var p := particles[i];
        var targetX := MapX(p.val, w);
        var cs := p.colorStrength;
        if p.y < lineTopY {
          cs := Fade(cs, COLOR_FADE);
        }
        var x, y;
        if dropping {
          x := p.x + (targetX - p.x) * SCATTER_RATE;
          y := p.y + (floorY - p.y) * SCATTER_RATE;
        } else {
          x := p.x + (p.binX - p.x) * HOLD_RATE + dxs[i] * HOLD_BREATH;
          y := p.y + (p.binY - p.y) * HOLD_RATE + dys[i] * HOLD_BREATH;
        }
        particles[i] := p.(x := x, y := y, colorStrength := cs);
        if Abs(x - targetX) > 1.0 || Abs(y - floorY) > 1.0 {
          ready := false;
        }
        i := i + 1;
      }
      assert particles[..] == next;
    }

    /**
     * The bin layout shared by REVEAL and CLUSTER: the particles below t
     * are numbered in array order and stacked in the negative bin, then
     * those at or above t in the positive bin.
     */
    method AssignBins(t: real, negCenter: real, posCenter: real, floorY: real, negSpread: seq<real>, posSpread: seq<real>)
      requires |negSpread| >= particles.Length && |posSpread| >= particles.Length
      modifies particles
      ensures particles[..] == PlaceAll(old(particles[..]), t, negCenter, posCenter, floorY, negSpread, posSpread)
    {
      ghost var ps := particles[..];
      PlaceSideLoop(false, t, negCenter, floorY, negSpread);
      PlaceSideLoop(true, t, posCenter, floorY, posSpread);
      TwoPassLayout(ps, t, negCenter, posCenter, floorY, negSpread, posSpread);
    }

    /** One bin's forEach: number the particles on one side of t in array order and give each its slot. */
    method PlaceSideLoop(positive: bool, t: real, center: real, floorY: real, spread: seq<real>)
      requires |spread| >= particles.Length
      modifies particles
      ensures particles[..] == PlaceSide(old(particles[..]), positive, t, center, floorY, spread)
    {
      ghost var ps := particles[..];
      ghost var next := PlaceSide(ps, positive, t, center, floorY, spread);
      var n := particles.Length;
      var rank := 0;
      var i := 0;
      while i < n
        invariant 0 <= i <= n
        invariant rank == SideCount(Vals(ps)[..i], t, positive)
        invariant forall k :: 0 <= k < i ==> particles[k] == next[k]
        invariant forall k :: i <= k < n ==> particles[k] == ps[k]
      {
        PlaceSideStep(ps, positive, t, center, floorY, spread, i);
        var p := particles[i];
        var mine := (p.val >= t) == positive;
        particles[i] := if mine then Place(p, rank, center, spread[rank], floorY) else p;
        rank := rank + (if mine then 1 else 0);
        i := i + 1;
      }
      assert particles[..] == next;
    }

    /**
     * One REVEAL frame: the line grows and the colour timer advances, both
     * capped; the bins are laid out; particles close in on their slots once
     * the timer passes 0.5 and only breathe before that. When both are at
     * their caps the mode becomes CLUSTER and every colour strength is 1.
     */
    method RevealStep(w: real, floorY: real, t: real, negBar: real, posBar: real, wb: Wobble)
      requires Valid() && mode == Reveal && Fits(wb, particles.Length)
      modifies particles, this`lineProgress, this`colorMix, this`mode
      ensures Valid()
      ensures lineProgress == Rise(old(lineProgress), 0.05, 1.0)
      ensures colorMix == Rise(old(colorMix), 0.015, 1.5)
      ensures old(lineProgress) <= lineProgress && old(colorMix) <= colorMix
      ensures var placed := PlaceAll(old(particles[..]), t, MapX(negBar, w), MapX(posBar, w), floorY,
                                     wb.negSpread, wb.posSpread);
        var moved := RevealAll(placed, colorMix > 0.5, wb.breatheX);
        if lineProgress >= 1.0 && colorMix >= 1.5 then mode == Cluster && particles[..] == FullColour(moved)
        else mode == Reveal && particles[..] == moved
    {
      ghost var ps := particles[..];
      lineProgress := Rise(lineProgress, 0.05, 1.0);
      colorMix := Rise(colorMix, 0.015, 1.5);
      AssignBins(t, MapX(negBar, w), MapX(posBar, w), floorY, wb.negSpread, wb.posSpread);
      ghost var placed := particles[..];
      RevealParticles(colorMix > 0.5, wb.breatheX);
      ghost var moved := particles[..];
      if lineProgress >= 1.0 && colorMix >= 1.5 {
        mode := Cluster;
        ResetColour();
      } else {
        SameColours(ps, particles[..]);
      }
    }

    /** The particle loop of a REVEAL frame. */
    method RevealParticles(clustering: bool, dxs: seq<real>)
      requires |dxs| == particles.Length
      modifies particles
      ensures particles[..] == RevealAll(old(particles[..]), clustering, dxs)
    {
      ghost var ps := particles[..];
      var i := 0;
      while i < particles.Length
        invariant 0 <= i <= particles.Length
        invariant forall k :: 0 <= k < i ==> particles[k] == RevealMove(ps[k], clustering, dxs[k])
        invariant forall k :: i <= k < particles.Length ==> particles[k] == ps[k]
      {
        var p := particles[i];
        if clustering {
          particles[i] := p.(x := p.x + (p.binX - p.x) * CLUSTER_RATE, y := p.y + (p.binY - p.y) * CLUSTER_RATE);
        } else {
          particles[i] := p.(x := p.x + dxs[i] * WAIT_BREATH);
        }
        i := i + 1;
      }
      assert particles[..] == RevealAll(ps, clustering, dxs);
    }

    /** Every colour strength back to 1, as the reveal ends. */
    method ResetColour()
      modifies particles
      ensures particles[..] == FullColour(old(particles[..]))
    {
      ghost var ps := particles[..];
      var i := 0;
      while i < particles.Length
        invariant 0 <= i <= particles.Length
        invariant forall k :: 0 <= k < i ==> particles[k] == ps[k].(colorStrength := 1.0)
        invariant forall k :: i <= k < particles.Length ==> particles[k] == ps[k]
      {
        particles[i] := particles[i].(colorStrength := 1.0);
        i := i + 1;
      }
      assert particles[..] == FullColour(ps);
    }

    /** One CLUSTER frame: lay out the bins, then move every particle as ClusterMove says. */
    method ClusterStep(w: real, floorY: real, t: real, negBar: real, posBar: real, wb: Wobble)
      requires Valid() && mode == Cluster && Fits(wb, particles.Length)
      modifies particles
      ensures Valid()
      ensures particles[..] == ClusterAll(PlaceAll(old(particles[..]), t, MapX(negBar, w), MapX(posBar, w), floorY,
                                                   wb.negSpread, wb.posSpread), wb.breatheX, wb.breatheY)
    {
      ghost var ps := particles[..];
      AssignBins(t, MapX(negBar, w), MapX(posBar, w), floorY, wb.negSpread, wb.posSpread);
      ghost var placed := particles[..];
      ClusterParticles(wb.breatheX, wb.breatheY);
      SameColours(ps, particles[..]);
    }

    /** The particle loop of a CLUSTER frame. */
    method ClusterParticles(dxs: seq<real>, dys: seq<real>)
      requires |dxs| == particles.Length && |dys| == particles.Length
      modifies particles
      ensures particles[..] == ClusterAll(old(particles[..]), dxs, dys)
    {
      ghost var ps := particles[..];
      var i := 0;
      while i < particles.Length
        invariant 0 <= i <= particles.Length
        invariant forall k :: 0 <= k < i ==> particles[k] == ClusterMove(ps[k], dxs[k], dys[k])
        invariant forall k :: i <= k < particles.Length ==> particles[k] == ps[k]
      {
        var p := particles[i];
        var x := p.x + (p.binX - p.x) * CLUSTER_RATE;
        var y := p.y + (p.binY - p.y) * CLUSTER_RATE;
        if Abs(x - p.binX) < BREATH_RADIUS && Abs(y - p.binY) < BREATH_RADIUS {
          x := x + dxs[i] * HOLD_BREATH;
          y := y + dys[i] * HOLD_BREATH;
        }
        particles[i] := p.(x := x, y := y);
        i := i + 1;
      }
      assert particles[..] == ClusterAll(ps, dxs, dys);
    }

    /**
     * The statistics block as the phases use it: the threshold and the two
     * bin centres of the method in use. With no particles the threshold is
     * the 'standard' 0 and the centres are unused.
     */
    method FrameStats(sd: real) returns (threshold: real, negBar: real, posBar: real)
      requires Valid()
      requires particles.Length > 0 ==> IsStdDev(Vals(particles[..]), sd)
      ensures threshold == Threshold(Vals(particles[..]), methodName)
      ensures particles.Length > 0 ==>
        var p := Choose(Vals(particles[..]), methodName, sd);
        negBar == p.beta - p.alpha && posBar == p.beta + p.alpha
    {
      threshold, negBar, posBar := 0.0, 0.0, 0.0;
      if particles.Length > 0 {
        var stats := Evaluate(Vals(particles[..]), methodName, sd).value;
        threshold := stats.params.threshold;
        negBar := stats.negBar;
        posBar := stats.posBar;
      }
    }

    /**
     * One turn of the render loop: nothing happens before the canvas has
     * a size; once it has one, a Frame runs on it, so the mode moves as
     * Frame says (DROP to CLUSTER, SCATTER to REVEAL, REVEAL to CLUSTER)
     * and every other move is made by SwitchMethod or Generate.
     */
    method Render(surface: Option<Size>, sd: real, wb: Wobble)
      requires Valid()
      requires surface.Some? ==> surface.value.w > 0.0 && surface.value.h > 0.0
      requires particles.Length > 0 ==> IsStdDev(Vals(particles[..]), sd)
      requires Fits(wb, particles.Length)
      modifies particles, this`mode, this`thresholdOpacity, this`lineProgress, this`colorMix, this`methodName,
               this`visualThreshold
      ensures Valid()
      ensures surface.None? ==> unchanged(this) && unchanged(particles)
      ensures surface.Some? ==>
        var threshold := Threshold(old(Vals(particles[..])), old(methodName));
        visualThreshold == if old(mode) == Reveal then threshold else Lerp(old(visualThreshold), threshold, 0.1)
      ensures surface.Some? && old(mode) == Drop ==>
        var w, floorY := surface.value.w, surface.value.h - BASELINE_OFFSET;
        && particles[..] == DropAll(old(particles[..]), w, floorY)
        && mode == (if DropDone(old(particles[..]), floorY) then Cluster else Drop)
      ensures surface.Some? && old(mode) == Scatter ==>
        var w, h := surface.value.w, surface.value.h;
        var lp := Fade(old(lineProgress), 0.04);
        && particles[..] == ScatterAll(old(particles[..]), w, h - BASELINE_OFFSET, LineTop(h, lp), lp <= 0.1,
                                       wb.breatheX, wb.breatheY)
        && if lp <= 0.0 && AllAtTarget(particles[..], w, h - BASELINE_OFFSET) then
             && mode == Reveal && methodName == old(targetMethod).value
             && lineProgress == 0.0 && colorMix == 0.0 && thresholdOpacity == 1.0
           else
             && mode == Scatter && methodName == old(methodName) && colorMix == old(colorMix)
             && lineProgress == lp && thresholdOpacity == Fade(old(thresholdOpacity), 0.05)
      ensures surface.Some? && old(mode) == Reveal ==>
        var placed := BinLayout(old(particles[..]), old(methodName), sd, surface.value.w,
                                surface.value.h - BASELINE_OFFSET, wb);
        var moved := RevealAll(placed, colorMix > 0.5, wb.breatheX);
        && lineProgress == Rise(old(lineProgress), 0.05, 1.0) && colorMix == Rise(old(colorMix), 0.015, 1.5)
        && thresholdOpacity == old(thresholdOpacity)
        && if lineProgress >= 1.0 && colorMix >= 1.5 then mode == Cluster && particles[..] == FullColour(moved)
           else mode == Reveal && particles[..] == moved
      ensures surface.Some? && old(mode) == Cluster ==>
        var placed := BinLayout(old(particles[..]), old(methodName), sd, surface.value.w,
                                surface.value.h - BASELINE_OFFSET, wb);
        particles[..] == ClusterAll(placed, wb.breatheX, wb.breatheY) && mode == Cluster
      ensures old(mode) != Scatter ==> methodName == old(methodName)
      ensures old(mode) != Scatter && old(mode) != Reveal ==>
        lineProgress == old(lineProgress) && colorMix == old(colorMix) && thresholdOpacity == old(thresholdOpacity)
      ensures Vals(particles[..]) == old(Vals(particles[..]))
    {
      if surface.None? {
        return;
      }
      Frame(surface.value.w, surface.value.h, sd, wb);
    }

    /**
     * One frame of the render loop on a w x h canvas (drawing left out).
     * The threshold of the method in use
     * drives the sliding threshold marker, which follows at rate 0.1 and
     * snaps during REVEAL; then the current mode's update runs, with the
     * floor BASELINE_OFFSET above the bottom and the bins centred on
     * beta - alpha and beta + alpha. A frame moves DROP to CLUSTER,
     * SCATTER to REVEAL and REVEAL to CLUSTER; the other mode changes
     * (CLUSTER or REVEAL to SCATTER, anything to DROP) happen only through
     * SwitchMethod and Generate.
     */
    method Frame(w: real, h: real, sd: real, wb: Wobble)
      requires Valid()
      requires particles.Length > 0 ==> IsStdDev(Vals(particles[..]), sd)
      requires Fits(wb, particles.Length)
      modifies particles, this`mode, this`thresholdOpacity, this`lineProgress, this`colorMix, this`methodName,
               this`visualThreshold
      ensures Valid()
      ensures
        var threshold := Threshold(old(Vals(particles[..])), old(methodName));
        visualThreshold == if old(mode) == Reveal then threshold else Lerp(old(visualThreshold), threshold, 0.1)
      ensures old(mode) == Drop ==>
        var floorY := h - BASELINE_OFFSET;
        && particles[..] == DropAll(old(particles[..]), w, floorY)
        && mode == (if DropDone(old(particles[..]), floorY) then Cluster else Drop)
      ensures old(mode) == Scatter ==>
        var lp := Fade(old(lineProgress), 0.04);
        && particles[..] == ScatterAll(old(particles[..]), w, h - BASELINE_OFFSET, LineTop(h, lp), lp <= 0.1,
                                       wb.breatheX, wb.breatheY)
        && if lp <= 0.0 && AllAtTarget(particles[..], w, h - BASELINE_OFFSET) then
             && mode == Reveal && methodName == old(targetMethod).value
             && lineProgress == 0.0 && colorMix == 0.0 && thresholdOpacity == 1.0
           else
             && mode == Scatter && methodName == old(methodName) && colorMix == old(colorMix)
             && lineProgress == lp && thresholdOpacity == Fade(old(thresholdOpacity), 0.05)
      ensures old(mode) == Reveal ==>
        var placed := BinLayout(old(particles[..]), old(methodName), sd, w, h - BASELINE_OFFSET, wb);
        var moved := RevealAll(placed, colorMix > 0.5, wb.breatheX);
        && lineProgress == Rise(old(lineProgress), 0.05, 1.0) && colorMix == Rise(old(colorMix), 0.015, 1.5)
        && thresholdOpacity == old(thresholdOpacity)
        && if lineProgress >= 1.0 && colorMix >= 1.5 then mode == Cluster && particles[..] == FullColour(moved)
           else mode == Reveal && particles[..] == moved
      ensures old(mode) == Cluster ==>
        var placed := BinLayout(old(particles[..]), old(methodName), sd, w, h - BASELINE_OFFSET, wb);
        particles[..] == ClusterAll(placed, wb.breatheX, wb.breatheY) && mode == Cluster
      ensures old(mode) != Scatter ==> methodName == old(methodName)
      ensures old(mode) != Scatter && old(mode) != Reveal ==>
        lineProgress == old(lineProgress) && colorMix == old(colorMix) && thresholdOpacity == old(thresholdOpacity)
      ensures Vals(particles[..]) == old(Vals(particles[..]))
    {
      var floorY := h - BASELINE_OFFSET;
      ghost var ps := particles[..];
      var threshold, negBar, posBar := FrameStats(sd);
      if mode != Reveal {
        visualThreshold := visualThreshold + (threshold - visualThreshold) * 0.1;
      } else {
        visualThreshold := threshold;
      }
      if mode == Reveal || mode == Cluster {
        BinLayoutOfBars(ps, methodName, sd, w, floorY, wb, threshold, negBar, posBar);
      }
      assert particles[..] == ps;
      Advance(w, h, floorY, threshold, negBar, posBar, wb);
    }

    /** The phase logic: run the update of the current mode, which leaves the values alone. */
    method Advance(w: real, h: real, floorY: real, threshold: real, negBar: real, posBar: real, wb: Wobble)
      requires Valid() && Fits(wb, particles.Length)
      modifies particles, this`mode, this`thresholdOpacity, this`lineProgress, this`colorMix, this`methodName
      ensures Valid()
      ensures old(mode) == Drop ==>
        && particles[..] == DropAll(old(particles[..]), w, floorY)
        && mode == (if DropDone(old(particles[..]), floorY) then Cluster else Drop)
      ensures old(mode) == Scatter ==>
        var lp := Fade(old(lineProgress), 0.04);
        && particles[..] == ScatterAll(old(particles[..]), w, floorY, LineTop(h, lp), lp <= 0.1, wb.breatheX, wb.breatheY)
        && if lp <= 0.0 && AllAtTarget(particles[..], w, floorY) then
             && mode == Reveal && methodName == old(targetMethod).value
             && lineProgress == 0.0 && colorMix == 0.0 && thresholdOpacity == 1.0
           else
             && mode == Scatter && methodName == old(methodName) && colorMix == old(colorMix)
             && lineProgress == lp && thresholdOpacity == Fade(old(thresholdOpacity), 0.05)
      ensures old(mode) == Reveal ==>
        var placed := PlaceAll(old(particles[..]), threshold, MapX(negBar, w), MapX(posBar, w), floorY,
                               wb.negSpread, wb.posSpread);
        var moved := RevealAll(placed, colorMix > 0.5, wb.breatheX);
        && lineProgress == Rise(old(lineProgress), 0.05, 1.0) && colorMix == Rise(old(colorMix), 0.015, 1.5)
        && thresholdOpacity == old(thresholdOpacity)
        && if lineProgress >= 1.0 && colorMix >= 1.5 then mode == Cluster && particles[..] == FullColour(moved)
           else mode == Reveal && particles[..] == moved
      ensures old(mode) == Cluster ==>
        && particles[..] == ClusterAll(PlaceAll(old(particles[..]), threshold, MapX(negBar, w), MapX(posBar, w), floorY,
                                                wb.negSpread, wb.posSpread), wb.breatheX, wb.breatheY)
        && mode == Cluster
      ensures old(mode) != Scatter ==> methodName == old(methodName)
      ensures old(mode) != Scatter && old(mode) != Reveal ==>
        lineProgress == old(lineProgress) && colorMix == old(colorMix) && thresholdOpacity == old(thresholdOpacity)
      ensures Vals(particles[..]) == old(Vals(particles[..]))
    {
      ghost var ps := particles[..];
      match mode {
        case Drop =>
          DropStep(w, floorY);
        case Scatter =>
          ScatterStep(w, h, floorY, wb);
        case Reveal =>
          RevealStep(w, floorY, threshold, negBar, posBar, wb);
        case Cluster =>
          ClusterStep(w, floorY, threshold, negBar, posBar, wb);
      }
      SameVals(ps, particles[..]);
    }
  }
}
