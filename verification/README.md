# AdaBinSim, modelled in Dafny

AdaBinSim is an animated explainer of 1-bit binarization. A population of 200
values, normally distributed around a small random bias, is shown as particles.
Each method binarizes the population with a threshold, a bias beta and a scale
alpha: a value at or above the threshold is reconstructed as beta + alpha, any
other as beta - alpha. The three methods are 'standard', 'adabin' (labelled
"Adaptive" on screen) and 'optimized'. Every frame, the render loop does four
things:

- It recomputes the statistics of the active method: mean, mean absolute
  deviation, standard deviation, beta, alpha, the L2 reconstruction error and
  the two bin counts.
- It eases a sliding threshold marker toward the threshold.
- It advances a small state machine over the particles. In DROP, the particles
  fall in and settle. In CLUSTER, they stack into two bins. SCATTER is a
  method switch: the bins dissolve and the particles fall to the floor. In
  REVEAL, the new method takes over, its colours fade in and the bins re-form.
- It draws the scene.

The model has six modules:

- `Wrappers`: `Option`.
- `RealArith`: absolute value, squares, and a few product facts that keep
  nonlinear arithmetic out of the solver's way.
- `Statistics`: the statistics block as pure functions on `seq<real>`, and
  lemmas about it:
  - the counts partition the population;
  - the error is zero exactly when every value equals its reconstruction;
  - for a threshold at the mean, the mean absolute deviation is the scale
    with the least L2 error, so 'optimized' never loses to 'adabin';
  - the mean absolute deviation is at most the standard deviation;
  - worked values for the population [-3, -1, 1, 3].
- `Kinematics`: the lerp step, the value-to-pixel map `mapX`, the bin slot
  geometry, the reveal colour-blend factor, the clamped per-tick counters, and
  their closed forms over n frames.
- `Particles`: the particle record; `generateParticles`, with its random draws
  as inputs; and what one frame of DROP, SCATTER, REVEAL and CLUSTER does to
  one particle and to the population. These are values, with lemmas about
  them.
- `Simulator`: the class `AdaBinSim`. It holds the particle array and the
  animation record, which the source mutates in place. Its methods are
  `Generate`, `SwitchMethod`, one step per mode (the particle loops on the
  array), `Advance` (the mode dispatch), `Frame` and `Render`. Every method
  states its new state through the `Particles` and `Statistics` functions:
  `Render` and `Frame` give, for each mode, the new particles, line progress,
  colour timer, threshold opacity, method and mode. Every method also keeps
  the invariant `Valid()`:
  - the line progress, the threshold opacity and the colour timer stay in
    range;
  - SCATTER always has a target method;
  - every colour strength stays in [0, 1];
  - an empty population is only ever in DROP with 'standard'.

Reals stand in for JavaScript numbers throughout.

Some facts about the code that the model follows exactly:

- The middle method's name is 'adabin'. Its tab label reads "Adaptive"
  (components/AdaBinSim.js:439), and its canvas label "Adaptive (Learnable)"
  (components/AdaBinSim.js:374).
- DROP ends when strictly more than 95% of the particles settle in one
  frame (components/AdaBinSim.js:172). Exactly 95% is not enough.
- The bias loop keeps drawing until a uniform draw lies strictly between
  0.05 and 0.2 (components/AdaBinSim.js:28, `AcceptedBias`).
- 'optimized' does give the least L2 error among the scales for its mean
  threshold. As a function of the scale a, the error is
  E(a) = E(MAD) + n (a - MAD)^2 (`ErrorGap`).
- The Box-Muller sample is a standard normal N(0, 1) value:
  sqrt(-ln u) * cos(2 pi v) * sqrt(2) is sqrt(-2 ln u) * cos(2 pi v). The
  comment above it (components/AdaBinSim.js:30) says N(0, 2).

## Model

| member | source | states |
|---|---|---|
| `Statistics.StrategyOf` | components/AdaBinSim.js:121-137 | 'standard' and 'adabin' are recognised by name; every other name selects the optimized branch |
| `Statistics.Threshold` | components/AdaBinSim.js:121-137 | the threshold is 0 for 'standard' and the population mean otherwise |
| `Statistics.Mean` | components/AdaBinSim.js:104-105 | sum / length of a non-empty population lies between its least and its greatest value |
| `Statistics.MeanAbs` | components/AdaBinSim.js:125-126 | the 'standard' scale (mean of abs(v)) is never negative |
| `Statistics.Mad` | components/AdaBinSim.js:112-114 | the mean absolute deviation from the mean (optimalAlpha) is never negative |
| `Statistics.Variance` | components/AdaBinSim.js:116-119 | sumSqDiff / length is never negative, so its square root exists |
| `Statistics.Choose` | components/AdaBinSim.js:121-137 | the strategy table: threshold == beta; 'standard' gives beta 0 and alpha the mean abs(v); 'adabin' gives beta the mean and alpha^2 the variance; any other name gives beta the mean and alpha the MAD; alpha >= 0 |
| `Statistics.Reconstruct` | components/AdaBinSim.js:151 | the reconstruction is beta + alpha or beta - alpha; for alpha > 0 it lies above beta exactly when the value is at or above the threshold |
| `Statistics.Error` | components/AdaBinSim.js:150-153 | the L2 error is non-negative |
| `Statistics.CountPos` | components/AdaBinSim.js:156-160 | the positive count never exceeds the population |
| `Statistics.CountNeg` | components/AdaBinSim.js:156-160 | the negative count never exceeds the population |
| `Statistics.Evaluate` | components/AdaBinSim.js:104-160 | the statistics block: undefined (NaN in the source) exactly for an empty population; otherwise mean == Mean, mad == Mad, stdDev == sd, params == Choose, negBar == beta - alpha and posBar == beta + alpha, totalError == Error (so >= 0), negCount == CountNeg and posCount == CountPos, the counts adding up to the population |
| `Statistics.CountsPartition` | components/AdaBinSim.js:156-160 | every value is counted exactly once: negCount + posCount == length |
| `Statistics.CountPosAll` | components/AdaBinSim.js:156-160 | posCount == length exactly when every value is at or above the threshold |
| `Statistics.CountPrefixMonotone` | components/AdaBinSim.js:156-160 | counting a longer prefix never gives fewer values on either side |
| `Statistics.ErrorZeroIff` | components/AdaBinSim.js:150-153 | the error is 0 exactly when every value equals its reconstruction |
| `Statistics.ErrorAtCentre` | components/AdaBinSim.js:150-153 | with threshold and beta at m, the error is SumSqDev - 2a SumAbsDev + n a^2 |
| `Statistics.ErrorGap` | components/AdaBinSim.js:112-153 | about any centre m, E(a) == E(M) + n (a - M)^2, where M is the mean of abs(v - m); so M gives the least error |
| `Statistics.MadMinimisesError` | components/AdaBinSim.js:132-137 | for the mean threshold, alpha = MAD has the least L2 error among all scales |
| `Statistics.OptimizedBeatsAdaBin` | components/AdaBinSim.js:127-137 | the 'optimized' error is never larger than the 'adabin' error |
| `Statistics.MadAtMostStdDev` | components/AdaBinSim.js:112-119 | optimalAlpha <= stdDev, so the optimized bins are never wider than the adabin ones |
| `Statistics.DeviationBound` | components/AdaBinSim.js:112-119 | about any centre, the mean absolute deviation is at most the root mean square deviation |
| `Statistics.FourValuesBasics` | components/AdaBinSim.js:104-126 | on [-3, -1, 1, 3]: mean 0, mean abs 2, MAD 2, variance 5 |
| `Statistics.StandardScenario` | components/AdaBinSim.js:104-160 | 'standard' on [-3, -1, 1, 3]: threshold 0, alpha 2, bars -2 and 2, error 4, two values per bin |
| `Statistics.AdaBinScenario` | components/AdaBinSim.js:127-153 | 'adabin' on [-3, -1, 1, 3]: sd^2 == 5 and the error is 40 - 16 sd (about 4.22) |
| `Kinematics.Lerp` | components/AdaBinSim.js:168 | a lerp step leaves (1 - r) of the distance to the target |
| `Kinematics.LerpNoOvershoot` | components/AdaBinSim.js:198-203 | with a rate in [0, 1], a lerp step lands between the start and the target |
| `Kinematics.LerpContracts` | components/AdaBinSim.js:251-252 | the distance to the target shrinks by exactly 1 - r, and strictly when r > 0 and the particle is not there yet |
| `Kinematics.LerpIterClosedForm` | components/AdaBinSim.js:291-293 | after n frames at one rate, the distance is (1 - r)^n of the original |
| `Kinematics.MapX` | components/AdaBinSim.js:98 | on a canvas of positive width, a value lands on the canvas (0 <= x <= w) exactly when it lies in the view range [-2, 2] |
| `Kinematics.MapXLandmarks` | components/AdaBinSim.js:98 | mapX sends 0 to the canvas centre and -2 and 2 to its edges |
| `Kinematics.MapXStrictlyIncreasing` | components/AdaBinSim.js:98 | on a canvas of positive width, mapX keeps the order of values |
| `Kinematics.BinY` | components/AdaBinSim.js:239 | a bin slot is at least one particle radius above the floor |
| `Kinematics.BinYStrictlyDecreasing` | components/AdaBinSim.js:233-245 | a higher rank gets a strictly higher slot, 2 pixels per rank |
| `Kinematics.BinXNearCenter` | components/AdaBinSim.js:238 | a slot `BinX` (the bin centre plus 24 times the sine spread, lines 238 and 244) lies within 24 pixels of its centre exactly when the spread is in [-1, 1] |
| `Kinematics.Clamp01` | components/AdaBinSim.js:328 | the clamp lands in [0, 1] and leaves values already in it alone |
| `Kinematics.RevealBlend` | components/AdaBinSim.js:324-329 | the reveal blend factor lies in [0, 1] |
| `Kinematics.RevealBlendShape` | components/AdaBinSim.js:324-329 | the blend is 0 until colorMix passes the delay, grows with colorMix, is 1 half a unit after the delay, and is 1 for every delay of at most 1 when colorMix is 1.5 |
| `Kinematics.Fade` | components/AdaBinSim.js:178-193 | max(0, v - step) is non-negative, never above v, and equals v - step whenever that is non-negative |
| `Kinematics.Rise` | components/AdaBinSim.js:223-225 | min(cap, v + step) is at most the cap, never below v, and equals v + step whenever that is at most the cap |
| `Kinematics.FadeIterClosedForm` | components/AdaBinSim.js:178 | n fading frames give max(0, v - n step) |
| `Kinematics.RiseIterClosedForm` | components/AdaBinSim.js:223-225 | n rising frames give min(cap, v + n step) |
| `Kinematics.PhaseLengths` | components/AdaBinSim.js:178-225 | the scatter line is gone after 25 frames, the reveal line is full after 20, and the colour timer reaches 1.5 after 100 |
| `Particles.Spawn` | components/AdaBinSim.js:34-46 | a new particle has value gauss + z, x 0, full colour, y in (-220, -20], vy in [5.6, 12.6), and a colour delay in [0, 0.5) |
| `Particles.SpawnAll` | components/AdaBinSim.js:29-47 | one particle per draw, in order, all from the same bias |
| `Particles.RejectsBias` | components/AdaBinSim.js:28 | the loop condition holds exactly when abs(z) >= 0.2 or abs(z) <= 0.05 |
| `Particles.AcceptedBias` | components/AdaBinSim.js:27-28 | the loop's start value 0 is rejected, and a uniform draw is accepted exactly when 0.05 < z < 0.2 |
| `Particles.PickBias` | components/AdaBinSim.js:27-28 | the bias is the first accepted draw; there is none exactly when every draw is rejected |
| `Particles.DropMove` | components/AdaBinSim.js:166-170 | only x and y change; y falls by vy and clamps at the floor, reaching it exactly when the particle settles; x snaps to mapX(val) from 0 and otherwise keeps 93% of its gap |
| `Particles.CountSettled` | components/AdaBinSim.js:163-171 | settledCount never exceeds the population |
| `Particles.CountSettledAll` | components/AdaBinSim.js:163-171 | settledCount is the population exactly when every particle settles |
| `Particles.DropDone` | components/AdaBinSim.js:172 | settledCount > 0.95 n holds exactly when 20 settledCount > 19 n, in integers |
| `Particles.DropDoneWhenAllSettle` | components/AdaBinSim.js:172-174 | DROP never ends with no particles, and ends in a frame where every particle settles |
| `Particles.DropIterRise` | components/AdaBinSim.js:169-170 | over n DROP frames, vy is unchanged and y follows the capped rise |
| `Particles.DropIterFalls` | components/AdaBinSim.js:169-170 | a falling particle is at min(floorY, y + n vy) after n frames |
| `Particles.LineTop` | components/AdaBinSim.js:185 | the top of the line is h at progress 0 and 0 at progress 1, and stays in [0, h] in between |
| `Particles.ScatterMove` | components/AdaBinSim.js:187-211 | above the line the colour fades by 0.15 (floored at 0), otherwise it is kept; dropping closes 8% of the gap to (mapX(val), floorY), holding closes 10% of the gap to the slot and adds the breath; no other field changes |
| `Particles.ScatterKeepsColour` | components/AdaBinSim.js:191-194 | a SCATTER frame fades every colour strength above the line by 0.15 (floored at 0) and keeps the others, so all stay in [0, 1] and none rises |
| `Particles.ScatterDropApproaches` | components/AdaBinSim.js:196-199 | while dropping, each particle gets strictly closer to its floor target on every axis where it is not there, and one within a pixel stays within a pixel |
| `Particles.AtScatterTarget` | components/AdaBinSim.js:210 | the readyToSwitch test passes for a particle exactly when x is within 1 of mapX(val) and y within 1 of floorY |
| `Particles.AllAtTarget` | components/AdaBinSim.js:182-210 | readyToSwitch stays true exactly when every particle is within 1 pixel of its target on both axes |
| `Particles.Rank` | components/AdaBinSim.js:228-246 | a particle's index in its bin is at most its index in the population |
| `Particles.RanksIncrease` | components/AdaBinSim.js:228-246 | within a bin, ranks strictly increase in array order |
| `Particles.RankBelowCount` | components/AdaBinSim.js:228-246 | the ranks of a bin lie below the size of the bin |
| `Particles.PlaceAll` | components/AdaBinSim.js:228-246 | the layout changes only binX and binY |
| `Particles.PlaceSide` | components/AdaBinSim.js:237-246 | one bin's pass leaves the population's length unchanged |
| `Particles.PlaceSideStep` | components/AdaBinSim.js:237-246 | one step of a bin's forEach gives the i-th particle the slot numbered by the count of earlier particles on its side |
| `Particles.TwoPassLayout` | components/AdaBinSim.js:228-246 | the negative pass followed by the positive pass is the whole layout |
| `Particles.PlaceAllStacks` | components/AdaBinSim.js:237-246 | within a bin, a later particle gets a strictly higher slot |
| `Particles.PlaceAllSlot` | components/AdaBinSim.js:233-246 | each slot is at least a radius above the floor, below the top of its bin (two pixels per particle in the bin), and within 24 pixels of the centre of the bin on its side |
| `Particles.RevealMove` | components/AdaBinSim.js:249-260 | after colorMix 0.5, a particle keeps 97% of its gap to the slot; before that, it only breathes horizontally |
| `Particles.FullColour` | components/AdaBinSim.js:262-266 | the end of the reveal sets every colour strength to 1 and changes nothing else |
| `Particles.NearSlot` | components/AdaBinSim.js:295 | the breath test passes exactly when x and y are each strictly within 5 pixels of the slot |
| `Particles.ClusterMove` | components/AdaBinSim.js:291-301 | a CLUSTER frame changes only x and y |
| `Particles.ClusterMoveSettles` | components/AdaBinSim.js:291-301 | a CLUSTER frame either ends near the slot (within 5 plus the breathing amplitude) or keeps 97% of the gap, and never moves away by more than the breathing amplitude |
| `Simulator.AdaBinSim.constructor` | components/AdaBinSim.js:5-16 | the initial state: no particles, 'standard' in use and on the tab, DROP, full opacity, line and colour timer at 1, no target, visual threshold 0 |
| `Simulator.AdaBinSim.Valid` | components/AdaBinSim.js:9-16 | the class invariant: line progress and threshold opacity in [0, 1], the colour timer in [0, 1.5], a target method in SCATTER, an empty population only in DROP with 'standard', every colour strength in [0, 1]; every method keeps it |
| `Simulator.AdaBinSim.Generate` | components/AdaBinSim.js:25-51 | a fresh array of 200 particles spawned from the first accepted bias draw; DROP restarts with full opacity, whatever the previous mode |
| `Simulator.AdaBinSim.SwitchMethod` | components/AdaBinSim.js:54-61 | ignored for the active tab and during SCATTER or DROP; otherwise the tab becomes the new method, the mode becomes SCATTER and the target is recorded |
| `Simulator.AdaBinSim.DropStep` | components/AdaBinSim.js:165-175 | every particle moves as DropMove says, and the mode becomes CLUSTER exactly when more than 95% of them settled |
| `Simulator.AdaBinSim.DropParticles` | components/AdaBinSim.js:163-171 | the DROP loop moves every particle as DropMove says and returns the number that settled |
| `Simulator.AdaBinSim.ScatterStep` | components/AdaBinSim.js:176-220 | the line and the opacity fade; the particles move as ScatterAll says; REVEAL starts with the target method exactly when the line is gone and every particle is within a pixel of its target; otherwise SCATTER continues |
| `Simulator.AdaBinSim.ScatterParticles` | components/AdaBinSim.js:187-211 | the SCATTER loop moves every particle as ScatterMove says, and readyToSwitch holds exactly when every moved particle is within a pixel of its target |
| `Simulator.AdaBinSim.AssignBins` | components/AdaBinSim.js:228-246 | the two forEach passes leave the array as PlaceAll lays it out |
| `Simulator.AdaBinSim.PlaceSideLoop` | components/AdaBinSim.js:237-246 | one bin's forEach numbers the particles on its side in array order and gives each its slot |
| `Simulator.AdaBinSim.RevealStep` | components/AdaBinSim.js:221-267 | the line and the colour timer rise, both capped; the bins are laid out and the particles move as RevealMove says; at both caps the mode becomes CLUSTER with every colour strength 1 |
| `Simulator.AdaBinSim.RevealParticles` | components/AdaBinSim.js:249-260 | the REVEAL loop moves every particle as RevealMove says |
| `Simulator.AdaBinSim.ResetColour` | components/AdaBinSim.js:265 | every colour strength becomes 1, nothing else changes |
| `Simulator.AdaBinSim.ClusterStep` | components/AdaBinSim.js:268-302 | the bins are laid out and every particle moves as ClusterMove says |
| `Simulator.AdaBinSim.ClusterParticles` | components/AdaBinSim.js:291-301 | the CLUSTER loop moves every particle as ClusterMove says |
| `Simulator.AdaBinSim.FrameStats` | components/AdaBinSim.js:104-140 | the frame's threshold and bars are those of the method in use |
| `Simulator.AdaBinSim.Render` | components/AdaBinSim.js:92-93 | nothing changes before the canvas has a size; otherwise the frame does exactly what Frame states, on that canvas |
| `Simulator.AdaBinSim.Frame` | components/AdaBinSim.js:97-302 | the marker eases by 0.1 toward the method's threshold (snapping in REVEAL); in DROP the particles become DropAll and the mode CLUSTER exactly when DropDone; in SCATTER the particles become ScatterAll under the faded line, and REVEAL starts with the target method exactly when the line is gone and all are at target, otherwise the line and opacity fade; in REVEAL the counters rise and the particles become RevealAll of the method's BinLayout, all at full colour and CLUSTER at both caps; in CLUSTER they become ClusterAll of the BinLayout; the values never change |
| `Simulator.AdaBinSim.Advance` | components/AdaBinSim.js:162-302 | for each mode, the new particles, counters, method and mode are exactly those of that mode's step for the given threshold and bars; the values never change |

## Left out

- The randomness of `generateParticles` is not modelled. The Box-Muller
  sample, the uniform height, speed and delay draws, and the bias draws are
  inputs. The logarithm, cosine and square roots of the Box-Muller transform
  are not modelled either; the sample arrives ready made.
- Simulator.AdaBinSim.Generate requires that some bias draw in its finite
  supply is accepted. The source keeps drawing forever; `PickBias` returns
  None when the supply runs out.
- `Math.sqrt` is not modelled: the standard deviation is an input `sd`,
  characterised by `sd >= 0 && sd * sd == variance` (`IsStdDev`).
- `Date.now()`, and the sines and cosines of the breathing motion and of the
  bin spreads (`sin(i * 123.1)`, `sin(i * 321.3)`), are inputs in `Wobble`,
  each a number in [-1, 1]. The per-particle `jitterPhase`, the unused `vx`
  and the animation record's `timer` are therefore not fields.
- The drawing is not modelled: the axes, the particle colours, the bars, the
  labels and the threshold line (components/AdaBinSim.js:305-419). Only the
  blend factor that picks the colours during REVEAL is modelled
  (`RevealBlend`).
- The React wiring is not modelled: `useEffect`, `ResizeObserver`,
  `requestAnimationFrame`, device pixel ratio scaling and the tab buttons.
  The canvas size is the `Render` parameter `surface`; `None` means it has
  not been measured yet. In the source, an unmeasured frame also returns
  before `requestAnimationFrame` (components/AdaBinSim.js:93, 413), so the
  loop stops until the effect runs again; the model has no loop to stop.
- The state setters `setMethod` and `setActiveTab` take effect at once in
  the model. React applies them on a later render, and `switchMethod` reads
  `activeTab` from the closure of the last render; that staleness is not
  modelled.
- Simulator.AdaBinSim.Valid does not claim that the method in use and the
  highlighted tab agree. `generateParticles` during SCATTER restarts DROP
  and leaves the pending switch unapplied, so they can differ.
- JavaScript numbers are modelled as reals, without rounding. `PhaseLengths`
  gives the exact frame counts; with floating point, a counter can land a
  rounding error away from its cap one frame earlier or later.
- With no particles, the source's averages are NaN (0 / 0). `Evaluate` gives
  None, and the threshold of 'standard', which does not depend on the
  population, stays 0. Only 'standard' and DROP are possible then.
- The WAIT mode named in the animation record's comment is never entered by
  the code, so `Mode` does not have it.
- Particles.ClusterMove only states which fields change. What the move does
  to the distance from the slot is the lemma `ClusterMoveSettles`.
- Particles.PlaceSide only states the length of its result. What it lays out
  is stated by `PlaceSideStep` and `TwoPassLayout`.
