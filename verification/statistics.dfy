/**
 * The statistics block of AdaBinSim's render loop: mean, mean absolute
 * deviation, standard deviation, the threshold/scale pair (beta, alpha) of
 * the active binarization method, the L2 reconstruction error and the
 * below/at-or-above counts. Values are modelled as reals; every sum is
 * accumulated front to back, as the source's forEach loops do.
 */
module Statistics {
  import opened Wrappers
  import opened RealArith

  function Sum(s: seq<real>): real
  {
    if |s| == 0 then 0.0 else Sum(s[..|s| - 1]) + s[|s| - 1]
  }

  /** Sum of |v| over the population. */
  function SumAbs(s: seq<real>): (r: real)
    ensures r >= 0.0
  {
    if |s| == 0 then 0.0 else SumAbs(s[..|s| - 1]) + Abs(s[|s| - 1])
  }

  /** Sum of |v - m|. */
  function SumAbsDev(s: seq<real>, m: real): (r: real)
    ensures r >= 0.0
  {
    if |s| == 0 then 0.0 else SumAbsDev(s[..|s| - 1], m) + Abs(s[|s| - 1] - m)
  }

  /** Sum of (v - m)^2. */
  function SumSqDev(s: seq<real>, m: real): (r: real)
    ensures r >= 0.0
  {
    if |s| == 0 then 0.0 else SumSqDev(s[..|s| - 1], m) + Sq(s[|s| - 1] - m)
  }

  /** The mean lies between the smallest and the largest value. */
  function Mean(s: seq<real>): (r: real)
    requires |s| > 0
    ensures Least(s) <= r <= Greatest(s)
  {
    SumAboveLeast(s);
    SumBelowGreatest(s);
    DivBetween(Sum(s), |s| as real, Least(s), Greatest(s));
    Sum(s) / (|s| as real)
  }

  function Least(s: seq<real>): real
    requires |s| > 0
  {
    if |s| == 1 then s[0] else Min(Least(s[..|s| - 1]), s[|s| - 1])
  }

  function Greatest(s: seq<real>): real
    requires |s| > 0
  {
    if |s| == 1 then s[0] else Max(Greatest(s[..|s| - 1]), s[|s| - 1])
  }

  /** The sum is at least |s| times the least value. */
  lemma {:induction false} SumAboveLeast(s: seq<real>)
    requires |s| > 0
    ensures Mul(|s| as real, Least(s)) <= Sum(s)
  {
    var t := s[..|s| - 1];
    if |t| > 0 {
      SumAboveLeast(t);
      var k := |t| as real;
      MulMonotone(k, Least(s), Least(t));
      assert Mul(k + 1.0, Least(s)) == Mul(k, Least(s)) + Least(s);
    }
  }

  /** The sum is at most |s| times the greatest value. */
  lemma {:induction false} SumBelowGreatest(s: seq<real>)
    requires |s| > 0
    ensures Sum(s) <= Mul(|s| as real, Greatest(s))
  {
    var t := s[..|s| - 1];
    if |t| > 0 {
      SumBelowGreatest(t);
      var k := |t| as real;
      MulMonotone(k, Greatest(t), Greatest(s));
      assert Mul(k + 1.0, Greatest(s)) == Mul(k, Greatest(s)) + Greatest(s);
    }
  }

  /** Mean of |v|: the scale of the 'standard' method. */
  function MeanAbs(s: seq<real>): (r: real)
    requires |s| > 0
    ensures r >= 0.0
  {
    SumAbs(s) / (|s| as real)
  }

  /** Mean absolute deviation from the mean (the source's optimalAlpha). */
  function Mad(s: seq<real>): (r: real)
    requires |s| > 0
    ensures r >= 0.0
  {
    SumAbsDev(s, Mean(s)) / (|s| as real)
  }

  /** Population variance, sumSqDiff / length. */
  function Variance(s: seq<real>): (r: real)
    requires |s| > 0
    ensures r >= 0.0
  {
    SumSqDev(s, Mean(s)) / (|s| as real)
  }

  /**
   * Dafny has no square root: the standard deviation Math.sqrt(variance)
   * is supplied by the caller as `sd`, characterised by this predicate.
   */
  predicate IsStdDev(s: seq<real>, sd: real)
    requires |s| > 0
  {
    sd >= 0.0 && sd * sd == Variance(s)
  }

  /** The three binarization methods, as the source's string names select them. */
  datatype Strategy = Standard | AdaBin | Optimized

  /** 'standard' and 'adabin' are recognised by name; every other name takes the last branch. */
  function StrategyOf(name: string): (k: Strategy)
    ensures k == Standard <==> name == "standard"
    ensures k == AdaBin <==> name == "adabin"
    ensures k == Optimized <==> name != "standard" && name != "adabin"
  {
    if name == "standard" then Standard
    else if name == "adabin" then AdaBin
    else Optimized
  }

  /**
   * The threshold of the active method. For 'standard' it is 0 even for an
   * empty population; the other methods need a mean.
   */
  function Threshold(s: seq<real>, name: string): (t: real)
    requires name == "standard" || |s| > 0
    ensures StrategyOf(name) == Standard ==> t == 0.0
    ensures StrategyOf(name) != Standard ==> t == Mean(s)
  {
    if name == "standard" then 0.0 else Mean(s)
  }

  /** Threshold, bias (beta) and scale (alpha) of a binarization. */
  datatype Params = Params(threshold: real, beta: real, alpha: real)

  /** The strategy table. */
  function Choose(s: seq<real>, name: string, sd: real): (p: Params)
    requires |s| > 0 && IsStdDev(s, sd)
    ensures p.threshold == p.beta == Threshold(s, name)
    ensures p.alpha >= 0.0
    ensures StrategyOf(name) == Standard ==> p.beta == 0.0 && p.alpha == MeanAbs(s)
    ensures StrategyOf(name) == AdaBin ==> p.beta == Mean(s) && p.alpha * p.alpha == Variance(s)
    ensures StrategyOf(name) == Optimized ==> p.beta == Mean(s) && p.alpha == Mad(s)
  {
    match StrategyOf(name)
    case Standard => Params(0.0, 0.0, MeanAbs(s))
    case AdaBin => Params(Mean(s), Mean(s), sd)
    case Optimized => Params(Mean(s), Mean(s), Mad(s))
  }

  /** A value at or above the threshold is reconstructed as beta + alpha, anything else as beta - alpha. */
  function Reconstruct(v: real, p: Params): (r: real)
    ensures r == p.beta + p.alpha || r == p.beta - p.alpha
    ensures p.alpha > 0.0 ==> (v >= p.threshold <==> r > p.beta)
  {
    if v >= p.threshold then p.beta + p.alpha else p.beta - p.alpha
  }

  /** L2 reconstruction error: the sum of squared differences. */
  function Error(s: seq<real>, p: Params): (r: real)
    ensures r >= 0.0
  {
    if |s| == 0 then 0.0 else Error(s[..|s| - 1], p) + Sq(s[|s| - 1] - Reconstruct(s[|s| - 1], p))
  }

  /** Number of values at or above the threshold. */
  function CountPos(s: seq<real>, t: real): (r: nat)
    ensures r <= |s|
  {
    if |s| == 0 then 0 else CountPos(s[..|s| - 1], t) + (if s[|s| - 1] >= t then 1 else 0)
  }

  /** Number of values strictly below the threshold. */
  function CountNeg(s: seq<real>, t: real): (r: nat)
    ensures r <= |s|
  {
    if |s| == 0 then 0 else CountNeg(s[..|s| - 1], t) + (if s[|s| - 1] >= t then 0 else 1)
  }

  /** Everything the statistics block produces in one tick. */
  datatype Summary = Summary(
    mean: real, mad: real, stdDev: real,
    params: Params,
    negBar: real, posBar: real,
    totalError: real,
    negCount: nat, posCount: nat)

  /**
   * The statistics block. With no particles the source divides by zero and
   * every average is NaN: that case is None.
   */
  function Evaluate(s: seq<real>, name: string, sd: real): (r: Option<Summary>)
    requires |s| > 0 ==> IsStdDev(s, sd)
    ensures r.None? <==> |s| == 0
    ensures r.Some? ==> r.value.mean == Mean(s) && r.value.mad == Mad(s) && r.value.stdDev == sd
    ensures r.Some? ==> r.value.params == Choose(s, name, sd)
    ensures r.Some? ==> r.value.negBar == r.value.params.beta - r.value.params.alpha
                        && r.value.posBar == r.value.params.beta + r.value.params.alpha
    ensures r.Some? ==> r.value.negBar <= r.value.params.beta <= r.value.posBar
    ensures r.Some? ==> r.value.totalError == Error(s, r.value.params) && r.value.totalError >= 0.0
    ensures r.Some? ==> r.value.negCount == CountNeg(s, r.value.params.threshold)
                        && r.value.posCount == CountPos(s, r.value.params.threshold)
    ensures r.Some? ==> r.value.negCount + r.value.posCount == |s|
  {
    if |s| == 0 then None
    else
      var p := Choose(s, name, sd);
      CountsPartition(s, p.threshold);
      Some(Summary(
        Mean(s), Mad(s), sd,
        p,
        p.beta - p.alpha, p.beta + p.alpha,
        Error(s, p),
        CountNeg(s, p.threshold), CountPos(s, p.threshold)))
  }

  // ---------------------------------------------------------------------
  // Counts

  /** The two counts partition the population. */
  lemma {:induction false} CountsPartition(s: seq<real>, t: real)
    ensures CountNeg(s, t) + CountPos(s, t) == |s|
  {
    if |s| > 0 {
      CountsPartition(s[..|s| - 1], t);
    }
  }

  /** Every value counts as positive exactly when every value is at or above the threshold. */
  lemma {:induction false} CountPosAll(s: seq<real>, t: real)
    ensures CountPos(s, t) == |s| <==> forall i :: 0 <= i < |s| ==> s[i] >= t
  {
    if |s| > 0 {
      var init := s[..|s| - 1];
      CountPosAll(init, t);
      assert forall i :: 0 <= i < |init| ==> init[i] == s[i];
    }
  }

  /** Counting a prefix never gives more than counting a longer prefix. */
  lemma {:induction false} CountPrefixMonotone(s: seq<real>, t: real, a: nat, b: nat)
    requires a <= b <= |s|
    ensures CountPos(s[..a], t) <= CountPos(s[..b], t)
    ensures CountNeg(s[..a], t) <= CountNeg(s[..b], t)
    decreases b - a
  {
    if a < b {
      CountPrefixMonotone(s, t, a, b - 1);
      assert s[..b][..b - 1] == s[..b - 1];
    }
  }

  // ---------------------------------------------------------------------
  // Reconstruction error

  /** The error vanishes exactly when every value equals its reconstruction. */
  lemma {:induction false} ErrorZeroIff(s: seq<real>, p: Params)
    ensures Error(s, p) == 0.0 <==> forall i :: 0 <= i < |s| ==> s[i] == Reconstruct(s[i], p)
  {
    if |s| > 0 {
      var init := s[..|s| - 1];
      var last := s[|s| - 1];
      ErrorZeroIff(init, p);
      assert forall i :: 0 <= i < |init| ==> init[i] == s[i];
      SqZero(last - Reconstruct(last, p));
    }
  }

  /** e == q - 2 a b + k a^2: how an error total splits at a centre. */
  predicate Split(e: real, q: real, b: real, k: real, a: real)
  {
    e == q - 2.0 * a * b + k * (a * a)
  }

  /** One value's squared error about a centre m: (v - m)^2 - 2a|v - m| + a^2. */
  lemma TermAtCentre(v: real, m: real, a: real)
    ensures Split(Sq(v - Reconstruct(v, Params(m, m, a))), Sq(v - m), Abs(v - m), 1.0, a)
  {
    var d := v - m;
    if v >= m {
      assert v - Reconstruct(v, Params(m, m, a)) == d - a;
      assert (d - a) * (d - a) == d * d - 2.0 * a * d + a * a;
    } else {
      assert v - Reconstruct(v, Params(m, m, a)) == d + a;
      assert (d + a) * (d + a) == d * d + 2.0 * a * d + a * a;
    }
  }

  lemma AddTerm(e0: real, de: real, q0: real, dq: real, b0: real, db: real, k: real, a: real)
    requires Split(e0, q0, b0, k, a) && Split(de, dq, db, 1.0, a)
    ensures Split(e0 + de, q0 + dq, b0 + db, k + 1.0, a)
  {
  }

  /**
   * With threshold and bias both at m, each value's squared error is
   * (v - m)^2 - 2a|v - m| + a^2, so the total splits into the two
   * deviation sums: E == SumSqDev - 2a SumAbsDev + n a^2.
   */
  lemma {:induction false} ErrorAtCentre(s: seq<real>, m: real, a: real)
    ensures Split(Error(s, Params(m, m, a)), SumSqDev(s, m), SumAbsDev(s, m), |s| as real, a)
  {
    if |s| > 0 {
      var init := s[..|s| - 1];
      var v := s[|s| - 1];
      var p := Params(m, m, a);
      ErrorAtCentre(init, m, a);
      TermAtCentre(v, m, a);
      AddTerm(Error(init, p), Sq(v - Reconstruct(v, p)), SumSqDev(init, m), Sq(v - m),
              SumAbsDev(init, m), Abs(v - m), |init| as real, a);
    }
  }

  /** E(a) - E(M) == n (a - M)^2 whenever the absolute deviations sum to n M. */
  lemma CompleteSquare(ea: real, eM: real, q: real, b: real, n: real, M: real, a: real)
    requires Split(ea, q, b, n, a) && Split(eM, q, b, n, M)
    requires n > 0.0 && M == b / n
    ensures ea == eM + n * Sq(a - M)
    ensures eM <= ea
  {
    DivBack(b, n);
    assert (a - M) * (a - M) == a * a - 2.0 * a * M + M * M;
    assert n * ((a - M) * (a - M)) == n * (a * a) - 2.0 * a * (n * M) + n * (M * M);
    MulNonNeg(n, Sq(a - M));
  }

  /** E(a) - E(M) == n (a - M)^2 about any centre m, where M is the mean of |v - m|. */
  lemma ErrorGap(s: seq<real>, m: real, M: real, a: real)
    requires |s| > 0 && M == SumAbsDev(s, m) / (|s| as real)
    ensures Error(s, Params(m, m, a)) == Error(s, Params(m, m, M)) + (|s| as real) * Sq(a - M)
    ensures Error(s, Params(m, m, M)) <= Error(s, Params(m, m, a))
  {
    ErrorAtCentre(s, m, a);
    ErrorAtCentre(s, m, M);
    CompleteSquare(Error(s, Params(m, m, a)), Error(s, Params(m, m, M)),
                   SumSqDev(s, m), SumAbsDev(s, m), |s| as real, M, a);
  }

  /**
   * Among all scales for the mean threshold, the mean absolute deviation
   * gives the least L2 error.
   */
  lemma MadMinimisesError(s: seq<real>, a: real)
    requires |s| > 0
    ensures Error(s, Params(Mean(s), Mean(s), Mad(s))) <= Error(s, Params(Mean(s), Mean(s), a))
  {
    ErrorGap(s, Mean(s), Mad(s), a);
  }

  /** The optimized method never has a larger L2 error than the adabin one. */
  lemma OptimizedBeatsAdaBin(s: seq<real>, sd: real)
    requires |s| > 0 && IsStdDev(s, sd)
    ensures Evaluate(s, "optimized", sd).value.totalError <= Evaluate(s, "adabin", sd).value.totalError
  {
    MadMinimisesError(s, sd);
  }

  /** From E(M) == n (Var - M^2) >= 0 and both sides non-negative. */
  lemma SquareBound(e: real, q: real, b: real, n: real, M: real, sd: real)
    requires n > 0.0 && M >= 0.0 && sd >= 0.0
    requires Split(e, q, b, n, M) && e >= 0.0
    requires M == b / n && sd * sd == q / n
    ensures M <= sd
  {
    DivBack(b, n);
    DivBack(q, n);
    assert e == n * (sd * sd - M * M);
    if Sq(sd) < Sq(M) {
      MulPos(n, Sq(M) - Sq(sd));
    }
    SqOrder(M, sd);
  }

  /** A consequence: the mean absolute deviation is at most the standard deviation. */
  lemma MadAtMostStdDev(s: seq<real>, sd: real)
    requires |s| > 0 && IsStdDev(s, sd)
    ensures Mad(s) <= sd
  {
    DeviationBound(s, Mean(s), Mad(s), sd);
  }

  /** About any centre m: the mean absolute deviation is at most the root mean square deviation. */
  lemma DeviationBound(s: seq<real>, m: real, M: real, sd: real)
    requires |s| > 0 && M == SumAbsDev(s, m) / (|s| as real)
    requires sd >= 0.0 && sd * sd == SumSqDev(s, m) / (|s| as real)
    ensures M <= sd
  {
    ErrorAtCentre(s, m, M);
    SquareBound(Error(s, Params(m, m, M)), SumSqDev(s, m), SumAbsDev(s, m), |s| as real, M, sd);
  }

  // ---------------------------------------------------------------------
  // Worked population [-3, -1, 1, 3]

  lemma FourValuesBasics()
    ensures Mean([-3.0, -1.0, 1.0, 3.0]) == 0.0
    ensures MeanAbs([-3.0, -1.0, 1.0, 3.0]) == 2.0
    ensures Mad([-3.0, -1.0, 1.0, 3.0]) == 2.0
    ensures Variance([-3.0, -1.0, 1.0, 3.0]) == 5.0
  {
    var s4 := [-3.0, -1.0, 1.0, 3.0];
    var s3 := [-3.0, -1.0, 1.0];
    var s2 := [-3.0, -1.0];
    var s1 := [-3.0];
    assert s4[..3] == s3 && s3[..2] == s2 && s2[..1] == s1 && s1[..0] == [];
    assert Sum(s1) == -3.0;
    assert Sum(s2) == -4.0;
    assert Sum(s3) == -3.0;
    assert Sum(s4) == 0.0;
    assert SumAbs(s1) == 3.0;
    assert SumAbs(s2) == 4.0;
    assert SumAbs(s3) == 5.0;
    assert SumAbs(s4) == 8.0;
    assert SumAbsDev(s1, 0.0) == 3.0;
    assert SumAbsDev(s2, 0.0) == 4.0;
    assert SumAbsDev(s3, 0.0) == 5.0;
    assert SumAbsDev(s4, 0.0) == 8.0;
    assert SumSqDev(s1, 0.0) == 9.0;
    assert SumSqDev(s2, 0.0) == 10.0;
    assert SumSqDev(s3, 0.0) == 11.0;
    assert SumSqDev(s4, 0.0) == 20.0;
  }

  /** 'standard' on [-3, -1, 1, 3]: alpha 2, threshold 0, two values per bin, error 4. */
  lemma StandardScenario(sd: real)
    requires IsStdDev([-3.0, -1.0, 1.0, 3.0], sd)
    ensures Evaluate([-3.0, -1.0, 1.0, 3.0], "standard", sd)
         == Some(Summary(0.0, 2.0, sd, Params(0.0, 0.0, 2.0), -2.0, 2.0, 4.0, 2, 2))
  {
    var s4 := [-3.0, -1.0, 1.0, 3.0];
    var s3 := [-3.0, -1.0, 1.0];
    var s2 := [-3.0, -1.0];
    var s1 := [-3.0];
    var p := Params(0.0, 0.0, 2.0);
    FourValuesBasics();
    assert Choose(s4, "standard", sd) == p;
    assert s4[..3] == s3 && s3[..2] == s2 && s2[..1] == s1 && s1[..0] == [];
    assert Error(s1, p) == 1.0;
    assert Error(s2, p) == 2.0;
    assert Error(s3, p) == 3.0;
    assert Error(s4, p) == 4.0;
    assert CountPos(s2, 0.0) == 0 && CountNeg(s2, 0.0) == 2;
    assert CountPos(s4, 0.0) == 2 && CountNeg(s4, 0.0) == 2;
  }

  /** 'adabin' on [-3, -1, 1, 3]: sd^2 == 5 and the error is 40 - 16 sd (about 4.22). */
  lemma AdaBinScenario(sd: real)
    requires IsStdDev([-3.0, -1.0, 1.0, 3.0], sd)
    ensures sd * sd == 5.0
    ensures Evaluate([-3.0, -1.0, 1.0, 3.0], "adabin", sd).value.totalError == 40.0 - 16.0 * sd
  {
    var s4 := [-3.0, -1.0, 1.0, 3.0];
    var s3 := [-3.0, -1.0, 1.0];
    var s2 := [-3.0, -1.0];
    var s1 := [-3.0];
    var p := Params(0.0, 0.0, sd);
    FourValuesBasics();
    assert Choose(s4, "adabin", sd) == p;
    assert s4[..3] == s3 && s3[..2] == s2 && s2[..1] == s1 && s1[..0] == [];
    assert Error(s1, p) == 9.0 - 6.0 * sd + sd * sd;
    assert Error(s2, p) == 10.0 - 8.0 * sd + 2.0 * (sd * sd);
    assert Error(s3, p) == 11.0 - 10.0 * sd + 3.0 * (sd * sd);
    assert Error(s4, p) == 20.0 - 16.0 * sd + 4.0 * (sd * sd);
  }
}
