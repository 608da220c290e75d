# Waveform shapes of mrdiagram, in Dafny

mrdiagram draws MRI pulse-sequence diagrams. Each RF pulse, gradient, trigger and
flag on a diagram is drawn from a `Shape`: an object holding a point count and a
sample array. The array is computed by the shape's `generate` and, for almost every
shape, passed through `normalize`, which rescales it onto [-1, 1].

This project models the base `Shape` and its normalisation. It also models the
shapes built from windows, masks, slices and linear ramps:

- RF pulses: rectangular, composite and DANTE.
- Markers: trigger and flag.
- Gradients: trapezoid, ramp up, ramp down and bipolar.

Module layout:

- `NumPy` (numpy.dfy) supplies the numpy and Python operations the generators
  rely on:
  - `zeros`, `linspace` and `abs`;
  - `max` and `min`, which raise on an empty array;
  - Python's `int()` on a float, which truncates;
  - CPython's clamping of slice bounds, where a negative bound counts from the end;
  - slice, item and boolean-mask assignment, with numpy's broadcasting rule.

  Slice writes (`SliceFilled`, `SliceAssigned`) and mask writes (`MaskFilled`) exist
  both as a function on `seq<real>` and as an in-place method on an
  `array<real>` (`FillSlice`, `AssignSlice`, `FillWhere`). Item assignment exists only
  as the function `ItemAssigned`. `FlagShape.Generate` writes `raw[center]`
  directly into its array.
- `Base` (base.dfy) holds the `Shape` state, `Normalize`, and the properties of
  `Normalize`:
  - it returns all zeros exactly for a constant array;
  - it spans [-1, 1];
  - it is monotone;
  - it is idempotent;
  - it acts as 2x - 1 on arrays whose minimum is 0 and maximum is 1.
- `RfShapes` (rf.dfy), `TriggerShapes` (trigger.dfy) and `GradientShapes`
  (gradient.dfy) each hold, per shape:
  - a specification function for what `generate` returns or raises;
  - lemmas about that function;
  - a class with the Python attributes as fields, whose constructor and `Generate`
    fill an array in place where the source does. The rectangular pulse and the two
    ramps compute their arrays whole, in the source and in the model.

  Every class's `Generate` is proved to return the specification function's value
  and to store it in `shape`.

Some definitions carry no contract of their own. Each is the computation at the
cited lines, and its properties are stated by the lemmas in the table:

- `Base.Stored`: the `self.shape = ...` assignment, which runs only when `generate`
  did not raise (shapes.py:34, 178, 198, 295, 308, 349, 359, 369, 422).
- `RfShapes.PulseCenter` (shapes.py:194), `RfShapes.PulseAmplitude` (shapes.py:196)
  and `RfShapes.Covers` (the mask at shapes.py:195).
- `GradientShapes.RequestedSegments`: the three `int(fraction * num_points)` counts
  (shapes.py:323-325).
- `GradientShapes.FitSegments` and `GradientShapes.ScaledCount`: the proportional
  reduction (shapes.py:327-334).
- `GradientShapes.TrapezoidSegments`: both steps together (shapes.py:323-334).
- `GradientShapes.TrapezoidSample`: the reference layout that TrapezoidFillLayout
  proves the writes produce.

`RfShapes.PulseCount` gives how many times `range` runs the pulse loop
(shapes.py:193). Its ensures only spell out its two cases, so it has no row; what the
empty loop means is stated by DanteNoPulses.

Three lemmas only unfold a definition at one index, to support the proofs:
`Base.NormalizeAt`, `NumPy.LinspaceAt` and `RfShapes.DanteStep`. So do
`Base.NormalizeEquals` and `Base.SameSamples`, which turn sample-by-sample equality
into array equality. Five more lemmas are arithmetic steps:
- `Base.NormalizeUnitIntervalSeq`, toward NormalizeUnitInterval;
- `GradientShapes.ScaledCountWithin`, `GradientShapes.ScaleBelowOne`,
  `GradientShapes.TruncScaled` and `GradientShapes.ScaledPartsFit`, toward
  FitSegmentsBounds and ScaledPairFits.

These helpers have no rows in the table.

Error paths are modelled as a `Result`. These are the cases where numpy or Python
raises:

- a negative point count, which `numpy.zeros` and `numpy.linspace` reject;
- `normalize` of an empty array, where `numpy.max` raises;
- the flag's index into an empty array;
- a trapezoid slice write whose value cannot broadcast, which happens with
  negative fractions.

Numbers are real numbers.

## Model

| member | source | states |
|---|---|---|
| `NumPy.Zeros` | shapes.py:292 | `numpy.zeros(n)` has n samples, each 0 |
| `NumPy.Linspace` | shapes.py:32 | `numpy.linspace` returns exactly num samples. Sample i is start + i·(stop − start)/(num − 1), which the helper LinspaceAt unfolds. The ends, the bounds and the affine image are given by LinspaceEnds, LinspaceBetween and LinspaceAffine |
| `NumPy.Abs` | shapes.py:33 | `numpy.abs`, used by every mask, is non-negative and equals x or -x |
| `NumPy.Trunc` | shapes.py:323-325 | `int()` truncates toward zero: the result is within 1 of x, at most \|x\| in size, with the sign of x |
| `NumPy.LinspaceBetween` | shapes.py:338 | every linspace sample lies between its two ends |
| `NumPy.LinspaceEnds` | shapes.py:347 | the first sample is start; with two or more samples the last is stop |
| `NumPy.LinspaceExtremes` | shapes.py:358 | the min and max of a linspace of two or more samples are its ends |
| `NumPy.LinspaceAffine` | shapes.py:358 | an affine map of a linspace is the linspace between the mapped ends |
| `NumPy.Max` | shapes.py:21 | `numpy.max` of a non-empty array is one of its samples and bounds all of them |
| `NumPy.Min` | shapes.py:21 | `numpy.min` of a non-empty array is one of its samples and is below all of them |
| `NumPy.SliceIndex` | shapes.py:294 | a Python slice bound adjusted to the array: clamped to [0, n], unchanged when already inside |
| `NumPy.SliceWidth` | shapes.py:338 | the number of elements a slice selects is at most the array length |
| `NumPy.SliceFilled` | shapes.py:294 | a scalar slice write on a value keeps the length; its window is given by TriggerWindow, BipolarHalves and PlateauWritten |
| `NumPy.SliceAssigned` | shapes.py:338 | a slice write with an array succeeds exactly when the array has the slice's width or length 1, and keeps the length |
| `NumPy.SliceAssignedWindow` | shapes.py:338 | writing v at a non-negative start where it fits never raises, and replaces exactly that window with v |
| `NumPy.ItemAssigned` | shapes.py:307 | an integer-index write succeeds exactly for -n <= i < n |
| `NumPy.MaskFilled` | shapes.py:171-176 | a masked scalar write keeps the length; its effect is given by CompositeAt and DanteUncovered |
| `NumPy.FillSlice` | shapes.py:294 | `a[start:stop] = x` in place gives the value model's array |
| `NumPy.AssignSlice` | shapes.py:338 | `a[start:stop] = v` in place gives the value model's array, or reports the broadcast error and writes nothing |
| `NumPy.FillWhere` | shapes.py:171-176 | `a[abs(t - c) <= w] = x` in place gives the value model's array |
| `Base.Rescale` | shapes.py:23 | the rescale sends min to -1 and max to 1, and keeps [min, max] inside [-1, 1] |
| `Base.RescaleMonotone` | shapes.py:23 | the rescale keeps order, in both directions |
| `Base.Normalize` | shapes.py:19-23 | normalize raises exactly for an empty array; otherwise it keeps the length and every sample is in [-1, 1] |
| `Base.ConstantIffFlat` | shapes.py:21 | max == min holds exactly when all samples are equal |
| `Base.NormalizeZerosIffConstant` | shapes.py:21-22 | normalize returns all zeros exactly when the array is constant |
| `Base.NormalizeSpansRange` | shapes.py:23 | for a non-constant array the samples at the minimum become exactly -1 and those at the maximum exactly 1 |
| `Base.NormalizeMonotone` | shapes.py:23 | normalize keeps the order of samples, and reflects it for a non-constant array |
| `Base.NormalizeIdempotent` | shapes.py:19-23 | normalizing a normalized array changes nothing |
| `Base.NormalizeUnitInterval` | shapes.py:23 | an array with min 0 and max 1 normalizes to 2x - 1 sample by sample |
| `Base.NormalizeFixesUnitRange` | shapes.py:23 | an array with min -1 and max 1 is its own normalization |
| `Base.Shape.constructor` | shapes.py:8-10 | stores the point count and leaves `shape` None |
| `Base.Shape.Generate` | shapes.py:12-17 | the base generate returns the stored array |
| `RfShapes.RectangularRaw` | shapes.py:32-33 | the raw pulse has n samples; their values are given by RectangularWindow |
| `RfShapes.RectangularOutput` | shapes.py:31-35 | a negative count raises, an empty array raises in normalize, otherwise n samples |
| `RfShapes.CentredWithin` | shapes.py:33 | the time -1 + 2x/m is within 0.8 of 0 exactly when 0.1m <= x <= 0.9m |
| `RfShapes.RectangularWindow` | shapes.py:32-33 | from 2 points on, sample i is 1 exactly when (n-1) <= 10i <= 9(n-1), else 0 |
| `RfShapes.RectangularSymmetric` | shapes.py:32-33 | the raw pulse is symmetric about the centre of the array |
| `RfShapes.RectangularSpansUnit` | shapes.py:32-33 | from 3 points on, the raw minimum is 0 and the raw maximum is 1 |
| `RfShapes.RectangularNormalized` | shapes.py:31-35 | from 3 points on, the output is 1 inside the window and -1 outside it (for 5 points: -1, 1, 1, 1, -1) |
| `RfShapes.RectangularTooShort` | shapes.py:31-35 | with one or two points no sample falls in the window, and the output is all zeros |
| `RfShapes.RectangularShape.constructor` | shapes.py:27-29 | stores the count and runs generate |
| `RfShapes.RectangularShape.Generate` | shapes.py:31-35 | returns RectangularOutput and stores it in shape |
| `RfShapes.CompositeRaw` | shapes.py:168-176 | the raw composite has n samples; their values are given by CompositeAt |
| `RfShapes.CompositeOutput` | shapes.py:167-179 | a negative count raises, an empty array raises in normalize, otherwise n samples |
| `RfShapes.CompositeAt` | shapes.py:171-176 | each raw sample is 0.5 in the side lobes around -1.2 and 1.2, 1 within 0.4 of 0, else 0 |
| `RfShapes.MiddleTime` | shapes.py:168 | the middle time is within 0.4 of 0 for an odd count from 3 or any count from 6 |
| `RfShapes.CompositeSpansUnit` | shapes.py:168-176 | then the raw minimum is 0 and the raw maximum is 1 |
| `RfShapes.CompositeAffine` | shapes.py:178 | then normalizing maps each raw sample x to 2x - 1 |
| `RfShapes.CompositeNormalized` | shapes.py:167-179 | then the output is 1 in the main lobe, 0 in the side lobes and -1 elsewhere |
| `RfShapes.CompositeShape.constructor` | shapes.py:163-165 | stores the count and runs generate |
| `RfShapes.CompositeShape.Generate` | shapes.py:167-179 | the three mask writes in place, then normalize, give CompositeOutput, which is stored |
| `RfShapes.DanteRaw` | shapes.py:191-196 | the raw train after some loop iterations has one sample per time; its values are given by DanteUncovered, DanteLastCover and DanteSeparated |
| `RfShapes.DanteOutput` | shapes.py:189-199 | a negative count raises, an empty array raises in normalize, otherwise n samples |
| `RfShapes.DanteNoPulses` | shapes.py:191-198 | a non-positive pulse count leaves the raw train all zeros, and a non-empty time axis then gives an all-zero output |
| `RfShapes.DanteUncovered` | shapes.py:191-196 | a sample no pulse covers stays 0 |
| `RfShapes.DanteLastCover` | shapes.py:193-196 | a sample covered by pulse p and by no later pulse holds pulse p's amplitude |
| `RfShapes.PulsesApart` | shapes.py:194 | later pulses are at least one spacing further on |
| `RfShapes.MasksDisjoint` | shapes.py:194-195 | when the spacing exceeds twice the width, no time is in two masks |
| `RfShapes.DanteSeparated` | shapes.py:182-196 | then a sample covered by pulse p holds exactly pulse p's amplitude, whatever the order of writes |
| `RfShapes.PulseAmplitudeBounds` | shapes.py:196 | for sine values in [-1, 1] each amplitude lies in [0.125, 0.375] |
| `RfShapes.DanteShape.constructor` | shapes.py:182-187 | stores the count, pulse count, width, spacing and sine, and runs generate |
| `RfShapes.DanteShape.Generate` | shapes.py:189-199 | the pulse loop in place, then normalize, gives DanteOutput, which is stored |
| `TriggerShapes.TriggerRaw` | shapes.py:292-294 | the raw trigger has n samples; their values are given by TriggerWindow and TriggerWrapsAtNine |
| `TriggerShapes.TriggerOutput` | shapes.py:291-296 | a negative count raises, zero points raise in normalize, otherwise n samples |
| `TriggerShapes.TriggerWindow` | shapes.py:292-294 | from 10 points on the raw trigger is 1 exactly on [n//2 - 5, n//2 + 5) |
| `TriggerShapes.TriggerWrapsAtNine` | shapes.py:294 | for 9 points the negative slice start wraps, and only the last sample is set |
| `TriggerShapes.TriggerNormalized` | shapes.py:291-296 | from 11 points on the output is 1 on the window and -1 elsewhere |
| `TriggerShapes.TriggerTenIsFlat` | shapes.py:291-296 | with 10 points the raw array is constant and the output is all zeros |
| `TriggerShapes.TriggerShape.constructor` | shapes.py:287-289 | stores the count and runs generate |
| `TriggerShapes.TriggerShape.Generate` | shapes.py:291-296 | the slice write in place, then normalize, gives TriggerOutput, which is stored |
| `TriggerShapes.FlagRaw` | shapes.py:305-307 | the spike write succeeds exactly when the array is non-empty |
| `TriggerShapes.FlagOutput` | shapes.py:304-309 | a negative count raises, zero points raise IndexError, otherwise n samples |
| `TriggerShapes.FlagSpike` | shapes.py:305-307 | the raw flag is 1 only at n // 2 |
| `TriggerShapes.FlagNormalized` | shapes.py:304-309 | from 2 points on the output is 1 at n // 2 and -1 elsewhere; one point gives [0] |
| `TriggerShapes.FlagShape.constructor` | shapes.py:300-302 | stores the count and runs generate |
| `TriggerShapes.FlagShape.Generate` | shapes.py:304-309 | the item write in place, then normalize, gives FlagOutput, which is stored |
| `GradientShapes.ScaledPairFits` | shapes.py:331-333 | scaling rise and plateau of an overflowing request keeps each in [0, requested] and their sum within n |
| `GradientShapes.RequestedNonNegative` | shapes.py:323-325 | non-negative fractions request non-negative counts |
| `GradientShapes.FitSegmentsBounds` | shapes.py:327-334 | after fitting, counts are non-negative with total <= n; an overflow fits exactly n with rise and plateau shrunk and fall the remainder; otherwise nothing changes |
| `GradientShapes.TrapezoidSegmentsFit` | shapes.py:323-334 | for non-negative fractions the three counts are non-negative and fit in n, exactly n after an overflow |
| `GradientShapes.RampWritten` | shapes.py:337-338 | a ramp that fits never raises and replaces exactly its window |
| `GradientShapes.PlateauWritten` | shapes.py:341-342 | a plateau that fits sets exactly its window to 1 |
| `GradientShapes.WriteRamp` | shapes.py:337-338 | a guarded ramp write keeps the length when it succeeds; RampWritten gives its window |
| `GradientShapes.WritePlateau` | shapes.py:341-342 | a guarded plateau write keeps the length; PlateauWritten gives its window |
| `GradientShapes.TrapezoidFill` | shapes.py:336-347 | the three guarded writes keep the length when they succeed; TrapezoidFillLayout gives the layout |
| `GradientShapes.Ramp` | shapes.py:338 | the rise or fall ramp has its count of samples, none for a count that is not positive |
| `GradientShapes.TrapezoidOf` | shapes.py:336-347 | the raw trapezoid for given counts keeps the length when it succeeds |
| `GradientShapes.TrapezoidRaw` | shapes.py:321-347 | the raw trapezoid keeps the length when it succeeds; TrapezoidLayout gives its values |
| `GradientShapes.TrapezoidOutputOf` | shapes.py:336-349 | the normalized trapezoid for given counts keeps the length when it succeeds |
| `GradientShapes.TrapezoidOutput` | shapes.py:320-350 | a negative count raises; a success keeps the length; with non-negative fractions every positive count succeeds with exactly that many samples |
| `GradientShapes.TrapezoidEmpty` | shapes.py:320-350 | zero points raise in normalize, whatever the fractions |
| `GradientShapes.TrapezoidFillLayout` | shapes.py:336-347 | counts that fit never raise, and give the rise ramp, the plateau at 1, the fall ramp, then zeros |
| `GradientShapes.TrapezoidOfInUnitInterval` | shapes.py:336-347 | counts that fit give raw samples in [0, 1] |
| `GradientShapes.TrapezoidOfSpansUnit` | shapes.py:336-342 | with a rise and a plateau the raw minimum is 0 and the maximum 1 |
| `GradientShapes.TrapezoidOfNormalized` | shapes.py:336-349 | then normalizing maps each raw sample x to 2x - 1 |
| `GradientShapes.TrapezoidLayout` | shapes.py:320-347 | for non-negative fractions no write raises, and the raw array is linspace(0, 1, rise), 1 on the plateau, linspace(1, 0, fall), then zeros |
| `GradientShapes.TrapezoidRawInUnitInterval` | shapes.py:320-347 | for non-negative fractions every raw sample lies in [0, 1] |
| `GradientShapes.TrapezoidNormalized` | shapes.py:320-350 | with a rise and a plateau the output is 2 * raw - 1 |
| `GradientShapes.TrapezoidDefaultRaw` | shapes.py:313-347 | default fractions with 5k points give segments k, 3k, k; the raw array starts at 0, is 1 on the plateau, and ends at 0 (at 1 when k = 1) |
| `GradientShapes.TrapezoidDefaultFractions` | shapes.py:313-350 | for those, the output starts at -1, is 1 on the plateau and ends at -1 (at 1 when k = 1) |
| `GradientShapes.TrapezoidOverflowTenPoints` | shapes.py:327-334 | fractions 0.5, 0.5, 0.5 of 10 points request 5, 5, 5 and fit to 3, 3, 4 |
| `GradientShapes.TrapezoidShape.constructor` | shapes.py:313-318 | stores the count and fractions and runs generate |
| `GradientShapes.TrapezoidShape.Generate` | shapes.py:320-350 | the counts, the writes in place and normalize give TrapezoidOutput, which is stored |
| `GradientShapes.TrapezoidShape.Build` | shapes.py:321-349 | the zero array, the writes in place and normalize give TrapezoidOutputOf for the counts |
| `GradientShapes.TrapezoidShape.Fill` | shapes.py:336-347 | the three writes in place give TrapezoidFill's array, or report its broadcast error |
| `GradientShapes.TrapezoidShape.RampInPlace` | shapes.py:337-347 | a guarded ramp write in place leaves WriteRamp of the old contents, or reports its broadcast error |
| `GradientShapes.TrapezoidShape.PlateauInPlace` | shapes.py:341-342 | the guarded plateau write in place leaves WritePlateau of the old contents |
| `GradientShapes.RampUpOutput` | shapes.py:357-360 | a negative count raises, zero points raise in normalize, otherwise n samples |
| `GradientShapes.RampDownOutput` | shapes.py:367-370 | a negative count raises, zero points raise in normalize, otherwise n samples |
| `GradientShapes.RampUpNormalized` | shapes.py:357-360 | from 2 points on the output is linspace(-1, 1, n); one point gives [0] |
| `GradientShapes.RampDownNormalized` | shapes.py:367-370 | from 2 points on the output is linspace(1, -1, n); one point gives [0] |
| `GradientShapes.RampUpFourPoints` | shapes.py:357-360 | with 4 points the ramp up is [-1, -1/3, 1/3, 1] |
| `GradientShapes.RampUpShape.constructor` | shapes.py:353-355 | stores the count and runs generate |
| `GradientShapes.RampUpShape.Generate` | shapes.py:357-360 | returns RampUpOutput and stores it |
| `GradientShapes.RampDownShape.constructor` | shapes.py:363-365 | stores the count and runs generate |
| `GradientShapes.RampDownShape.Generate` | shapes.py:367-370 | returns RampDownOutput and stores it |
| `GradientShapes.BipolarRaw` | shapes.py:417-420 | the raw bipolar has n samples; their values are given by BipolarHalves |
| `GradientShapes.BipolarOutput` | shapes.py:416-423 | a negative count raises; otherwise the unnormalized raw array is returned |
| `GradientShapes.BipolarHalves` | shapes.py:417-420 | the output is 1 below n // 2 and -1 from there |
| `GradientShapes.BipolarSkipsNormalize` | shapes.py:421-422 | skipping normalize matters only below 2 points: from 2 on the array is its own normalization, [-1] would become [0], and the empty array would raise |
| `GradientShapes.BipolarFourPoints` | shapes.py:416-423 | with 4 points the output is [1, 1, -1, -1] |
| `GradientShapes.BipolarShape.constructor` | shapes.py:412-414 | stores the count and runs generate |
| `GradientShapes.BipolarShape.Generate` | shapes.py:416-423 | the two slice writes in place give BipolarOutput, which is stored |

## Left out

- The shapes whose samples are values of `sin`, `cos`, `exp`, `cosh` or `tanh` are
  not part of this model, because real arithmetic cannot express those functions:
  - Sinc, Gaussian, HammingSinc, Chess, Adiabatic, SLR, Verse, Fermi and SPSP
    (shapes.py:37-160);
  - HyperbolicSecant and BIR (shapes.py:201-226);
  - FID and Echo (shapes.py:227-269);
  - STIR (shapes.py:271-283);
  - Radial, Spiral and EPI (shapes.py:372-409).
- plot.py and convert.py are not part of this model. plot.py is a Qt interface
  that plots the generated arrays. convert.py turns each generated array into an
  SVG path and writes icon files. Neither computes any samples.
- Floating point: every sample is a real number, so rounding is not modelled:
  - in `linspace`;
  - in the rescale inside `normalize`;
  - in the trapezoid's `int(fraction * n)` and `n / total`, whose truncation is
    modelled exactly.
- `numpy.sin` in DANTE is a parameter `sine` of `DanteShape`, because it is not
  expressible on reals.
- DANTE's normalized output has no lemma beyond the pulse-free case
  (DanteNoPulses): its extremes depend on the values of `sine`. The raw train
  is characterised by DanteUncovered, DanteLastCover and DanteSeparated.
- Constructors: in Python an exception in `generate` propagates out of
  `__init__`, so no object is created. Each model constructor instead discards the
  Result of `Generate` and finishes normally. After construction, a failed
  `generate` shows only as `shape == None`; which error occurred is not kept.
- Non-numeric arguments, for which Python raises a TypeError, are excluded by the
  parameter types.
- TrapezoidLayout: its layout and range lemmas require non-negative fractions.
  With negative fractions, `TrapezoidOutput` models the raise or the Python
  slice behaviour, but no lemma describes it.
- TrapezoidNormalized: requires at least one rise and one plateau sample. Without
  them the raw minimum or maximum is not forced to 0 and 1.
- TriggerWindow: requires at least 10 points. Below that the negative slice start
  wraps around, as TriggerWrapsAtNine shows for 9 points.
- TriggerNormalized: requires more than 10 points. With exactly 10 the output is
  flat (TriggerTenIsFlat).
- RectangularNormalized: requires at least 3 points. RectangularTooShort covers 1
  and 2.
- CompositeNormalized: requires an odd count from 3, or any count from 6. Only then
  is a sample guaranteed to fall within the main lobe.
- PulseAmplitudeBounds: assumes the sine values lie in [-1, 1], since `sine` is a
  parameter.
