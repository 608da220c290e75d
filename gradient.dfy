/** The gradient shapes of shapes.py: trapezoid, ramp up, ramp down and bipolar. */
module GradientShapes {
  import opened NumPy
  import opened Base

  /** Point counts of the rise, plateau and fall segments of a trapezoid. */
  datatype Segments = Segments(rise: int, plateau: int, fall: int) {
    function Total(): int { rise + plateau + fall }

    predicate NonNegative() { rise >= 0 && plateau >= 0 && fall >= 0 }
  }

  /** The requested counts: `int(fraction * num_points)` for each segment. */
  function RequestedSegments(n: nat, riseFraction: real, plateauFraction: real, fallFraction: real): (sg: Segments)
  {
    Segments(Trunc(riseFraction * n as real), Trunc(plateauFraction * n as real),
             Trunc(fallFraction * n as real))
  }

  /** When the requested counts exceed n, rise and plateau are scaled by n / total and
      truncated, and fall takes what is left; otherwise the counts stay as requested. */
  function FitSegments(sg: Segments, n: nat): (fitted: Segments)
  {
    if sg.Total() > n then
      var rise := ScaledCount(sg.rise, n, sg.Total());
      var plateau := ScaledCount(sg.plateau, n, sg.Total());
      Segments(rise, plateau, n - rise - plateau)
    else sg
  }

  /** `int(k * scale)` with `scale = n / total`. */
  function ScaledCount(k: int, n: nat, total: int): (scaled: int)
    requires total > 0
  {
    Trunc(k as real * (n as real / total as real))
  }

  /** Scaling the rise and the plateau of an overflowing request keeps each between 0
      and its requested count, and their sum within n. */
  lemma ScaledPairFits(rise: int, plateau: int, fall: int, n: nat)
    requires rise >= 0 && plateau >= 0 && fall >= 0 && rise + plateau + fall > n
    ensures 0 <= ScaledCount(rise, n, rise + plateau + fall) <= rise
    ensures 0 <= ScaledCount(plateau, n, rise + plateau + fall) <= plateau
    ensures ScaledCount(rise, n, rise + plateau + fall) + ScaledCount(plateau, n, rise + plateau + fall) <= n
  {
    var total := rise + plateau + fall;
    ScaledCountWithin(rise, n, total);
    ScaledCountWithin(plateau, n, total);
    ScaledPartsFit(rise as real, plateau as real, total as real, n as real);
  }

  /** A count scaled by n / total < 1 and truncated lies between 0 and the count, and
      no higher than the scaled value. */
  lemma ScaledCountWithin(k: int, n: nat, total: int)
    requires k >= 0 && total > n
    ensures 0 <= ScaledCount(k, n, total) <= k
    ensures ScaledCount(k, n, total) as real <= k as real * (n as real / total as real)
  {
    ScaleBelowOne(n, total);
    TruncScaled(k, n as real / total as real);
  }

  /** The segment counts `TrapezoidShape.generate` writes. */
  function TrapezoidSegments(n: nat, riseFraction: real, plateauFraction: real, fallFraction: real): (sg: Segments)
  {
    FitSegments(RequestedSegments(n, riseFraction, plateauFraction, fallFraction), n)
  }

  /** Non-negative fractions give non-negative requested counts. */
  lemma RequestedNonNegative(n: nat, riseFraction: real, plateauFraction: real, fallFraction: real)
    requires riseFraction >= 0.0 && plateauFraction >= 0.0 && fallFraction >= 0.0
    ensures RequestedSegments(n, riseFraction, plateauFraction, fallFraction).NonNegative()
  {
    assert riseFraction * n as real >= 0.0;
    assert plateauFraction * n as real >= 0.0;
    assert fallFraction * n as real >= 0.0;
  }

  /** Fitting non-negative counts keeps them non-negative with a total of at most n;
      when the request overflowed, the total is exactly n, rise and plateau only shrink,
      and fall is the remainder; otherwise nothing changes. */
  lemma FitSegmentsBounds(sg: Segments, n: nat)
    requires sg.NonNegative()
    ensures FitSegments(sg, n).NonNegative()
    ensures FitSegments(sg, n).Total() <= n
    ensures sg.Total() > n ==> FitSegments(sg, n).Total() == n
    ensures sg.Total() > n ==>
      FitSegments(sg, n).rise <= sg.rise && FitSegments(sg, n).plateau <= sg.plateau &&
      FitSegments(sg, n).fall == n - FitSegments(sg, n).rise - FitSegments(sg, n).plateau
    ensures sg.Total() <= n ==> FitSegments(sg, n) == sg
  {
    if sg.Total() > n {
      ScaledPairFits(sg.rise, sg.plateau, sg.fall, n);
    }
  }

  /** n / total lies in [0, 1) when total exceeds n. */
  lemma ScaleBelowOne(n: nat, total: int)
    requires total > n
    ensures 0.0 <= n as real / total as real < 1.0
  {
    assert (n as real / total as real) * total as real == n as real;
  }

  /** Truncating a count scaled by a factor in [0, 1] gives a count between 0 and the
      original, no larger than the scaled value. */
  lemma TruncScaled(k: int, scale: real)
    requires k >= 0 && 0.0 <= scale <= 1.0
    ensures 0 <= Trunc(k as real * scale) <= k
    ensures Trunc(k as real * scale) as real <= k as real * scale
  {
    ScaleWithin(scale, k as real);
  }

  /** Two parts of a total, each scaled by n / total, add up to at most n. */
  lemma ScaledPartsFit(r: real, p: real, total: real, n: real)
    requires r >= 0.0 && p >= 0.0 && r + p <= total && total > 0.0 && n >= 0.0
    ensures r * (n / total) + p * (n / total) <= n
  {
    var scale := n / total;
    assert scale * total == n;
    assert scale >= 0.0;
    assert r * scale + p * scale == (r + p) * scale;
    assert (r + p) * scale <= total * scale;
  }

  /** For non-negative fractions the three counts are non-negative and fit in n. */
  lemma TrapezoidSegmentsFit(n: nat, riseFraction: real, plateauFraction: real, fallFraction: real)
    requires riseFraction >= 0.0 && plateauFraction >= 0.0 && fallFraction >= 0.0
    ensures TrapezoidSegments(n, riseFraction, plateauFraction, fallFraction).NonNegative()
    ensures TrapezoidSegments(n, riseFraction, plateauFraction, fallFraction).Total() <= n
    ensures RequestedSegments(n, riseFraction, plateauFraction, fallFraction).Total() > n ==>
      TrapezoidSegments(n, riseFraction, plateauFraction, fallFraction).Total() == n
  {
    RequestedNonNegative(n, riseFraction, plateauFraction, fallFraction);
    FitSegmentsBounds(RequestedSegments(n, riseFraction, plateauFraction, fallFraction), n);
  }

  /** The three slice writes of `TrapezoidShape.generate` on n zeros, with `up` as the
      rise ramp and `down` as the fall ramp: `raw[:rise] = up`, then
      `raw[rise:rise+plateau] = 1.0`, then `raw[start:start+fall] = down`, each only
      when its count is positive. */
  function TrapezoidFill(n: nat, sg: Segments, up: seq<real>, down: seq<real>): (r: Result<seq<real>>)
    ensures r.Ok? ==> |r.value| == n
  {
    var s1 :- WriteRamp(Zeros(n), 0, sg.rise, up);
    WriteRamp(WritePlateau(s1, sg.rise, sg.plateau), sg.rise + sg.plateau, sg.fall, down)
  }

  /** `raw[start:start+count] = v` when count is positive, nothing otherwise. */
  function WriteRamp(s: seq<real>, start: int, count: int, v: seq<real>): (r: Result<seq<real>>)
    ensures r.Ok? ==> |r.value| == |s|
  {
    if count > 0 then SliceAssigned(s, start, start + count, v) else Ok(s)
  }

  /** `raw[start:start+count] = 1.0` when count is positive, nothing otherwise. */
  function WritePlateau(s: seq<real>, start: int, count: int): (r: seq<real>)
    ensures |r| == |s|
  {
    if count > 0 then SliceFilled(s, start, start + count, 1.0) else s
  }

  /** The raw trapezoid: the rise ramp is `linspace(0, 1, rise)` and the fall ramp
      `linspace(1, 0, fall)`. */
  function TrapezoidRaw(n: nat, riseFraction: real, plateauFraction: real, fallFraction: real): (r: Result<seq<real>>)
    ensures r.Ok? ==> |r.value| == n
  {
    TrapezoidOf(n, TrapezoidSegments(n, riseFraction, plateauFraction, fallFraction))
  }

  /** The raw trapezoid for given segment counts. */
  function TrapezoidOf(n: nat, sg: Segments): (r: Result<seq<real>>)
    ensures r.Ok? ==> |r.value| == n
  {
    TrapezoidFill(n, sg, Ramp(0.0, 1.0, sg.rise), Ramp(1.0, 0.0, sg.fall))
  }

  /** `numpy.linspace(start, stop, count)` where it is called, that is for a positive
      count; empty otherwise. */
  function Ramp(start: real, stop: real, count: int): (t: seq<real>)
    ensures |t| == if count > 0 then count else 0
  {
    if count > 0 then Linspace(start, stop, count) else []
  }

  /** What `TrapezoidShape.generate` returns or raises. With non-negative fractions
      every write fits, so any positive point count succeeds. */
  function TrapezoidOutput(numPoints: int, riseFraction: real, plateauFraction: real, fallFraction: real): (r: Result<seq<real>>)
    ensures numPoints < 0 ==> r == Err(NegativeCount)
    ensures r.Ok? ==> |r.value| == numPoints
    ensures numPoints > 0 && riseFraction >= 0.0 && plateauFraction >= 0.0 && fallFraction >= 0.0 ==>
      r.Ok? && |r.value| == numPoints
  {
    if numPoints < 0 then Err(NegativeCount)
    else
      var out := TrapezoidOutputOf(numPoints, TrapezoidSegments(numPoints, riseFraction, plateauFraction, fallFraction));
      if riseFraction >= 0.0 && plateauFraction >= 0.0 && fallFraction >= 0.0 then
        TrapezoidLayout(numPoints, riseFraction, plateauFraction, fallFraction);
        out
      else out
  }

  /** The normalized trapezoid for given segment counts. */
  function TrapezoidOutputOf(n: nat, sg: Segments): (r: Result<seq<real>>)
    ensures r.Ok? ==> |r.value| == n
  {
    var raw :- TrapezoidOf(n, sg);
    Normalize(raw)
  }

  /** With no points every count is 0, the raw array is empty and normalize raises,
      whatever the fractions. */
  lemma TrapezoidEmpty(riseFraction: real, plateauFraction: real, fallFraction: real)
    ensures TrapezoidOutput(0, riseFraction, plateauFraction, fallFraction) == Err(EmptyReduction)
  {
    assert RequestedSegments(0, riseFraction, plateauFraction, fallFraction) == Segments(0, 0, 0) by {
      assert riseFraction * 0 as real == 0.0;
      assert plateauFraction * 0 as real == 0.0;
      assert fallFraction * 0 as real == 0.0;
    }
    assert TrapezoidOf(0, Segments(0, 0, 0)) == Ok([]);
  }

  /** Sample i of the trapezoid laid out from segment counts sg and the two ramps. */
  function TrapezoidSample(sg: Segments, up: seq<real>, down: seq<real>, i: nat): (x: real)
    requires sg.NonNegative() && |up| == sg.rise && |down| == sg.fall
  {
    if i < sg.rise then up[i]
    else if i < sg.rise + sg.plateau then 1.0
    else if i < sg.Total() then down[i - sg.rise - sg.plateau]
    else 0.0
  }

  /** Non-negative counts that fit in n never make a write raise, and the result is
      the rise ramp, the plateau at 1, the fall ramp and zeros to the end, in order. */
  lemma TrapezoidFillLayout(n: nat, sg: Segments, up: seq<real>, down: seq<real>)
    requires sg.NonNegative() && sg.Total() <= n && |up| == sg.rise && |down| == sg.fall
    ensures TrapezoidFill(n, sg, up, down).Ok?
    ensures forall i :: 0 <= i < n ==> TrapezoidFill(n, sg, up, down).value[i] == TrapezoidSample(sg, up, down, i)
  {
    var s0 := Zeros(n);
    RampWritten(s0, 0, sg.rise, up);
    var s1 := WriteRamp(s0, 0, sg.rise, up).value;
    PlateauWritten(s1, sg.rise, sg.plateau);
    var s2 := WritePlateau(s1, sg.rise, sg.plateau);
    var start := sg.rise + sg.plateau;
    RampWritten(s2, start, sg.fall, down);
    var s3 := WriteRamp(s2, start, sg.fall, down).value;
    assert TrapezoidFill(n, sg, up, down) == Ok(s3);
    forall i | 0 <= i < n ensures s3[i] == TrapezoidSample(sg, up, down, i) {
      if i < sg.rise {
        assert s3[i] == s2[i] == s1[i];
      } else if i < start {
        assert s3[i] == s2[i];
      } else if i >= start + sg.fall {
        assert s3[i] == s2[i] == s1[i] == s0[i];
      }
    }
  }

  /** A ramp that fits at a non-negative start never raises and replaces exactly its
      window. */
  lemma RampWritten(s: seq<real>, start: nat, count: int, v: seq<real>)
    requires count >= 0 && |v| == count && start + count <= |s|
    ensures WriteRamp(s, start, count, v).Ok?
    ensures forall i :: 0 <= i < |s| ==>
      WriteRamp(s, start, count, v).value[i] == if start <= i < start + count then v[i - start] else s[i]
  {
    if count > 0 {
      SliceAssignedWindow(s, start, v);
    }
  }

  /** A plateau that fits at a non-negative start sets exactly its window to 1. */
  lemma PlateauWritten(s: seq<real>, start: nat, count: int)
    requires count >= 0 && start + count <= |s|
    ensures forall i :: 0 <= i < |s| ==>
      WritePlateau(s, start, count)[i] == if start <= i < start + count then 1.0 else s[i]
  {
    if count > 0 {
      assert SliceIndex(start, |s|) == start && SliceIndex(start + count, |s|) == start + count;
    }
  }

  /** Counts that are non-negative and fit give a raw trapezoid with every sample in
      [0, 1]. */
  lemma TrapezoidOfInUnitInterval(n: nat, sg: Segments)
    requires sg.NonNegative() && sg.Total() <= n
    ensures TrapezoidOf(n, sg).Ok?
    ensures forall i :: 0 <= i < n ==> 0.0 <= TrapezoidOf(n, sg).value[i] <= 1.0
  {
    var up, down := Ramp(0.0, 1.0, sg.rise), Ramp(1.0, 0.0, sg.fall);
    TrapezoidFillLayout(n, sg, up, down);
    forall i | 0 <= i < n ensures 0.0 <= TrapezoidSample(sg, up, down, i) <= 1.0 {
      if i < sg.rise {
        LinspaceBetween(0.0, 1.0, sg.rise, i);
      } else if sg.rise + sg.plateau <= i < sg.Total() {
        LinspaceBetween(1.0, 0.0, sg.fall, i - sg.rise - sg.plateau);
      }
    }
  }

  /** With a rise and a plateau, the raw samples reach 0 (the first rise sample) and 1
      (the first plateau sample), so normalizing maps each sample x to 2 * x - 1. */
  lemma TrapezoidOfNormalized(n: nat, sg: Segments)
    requires sg.NonNegative() && sg.Total() <= n && sg.rise >= 1 && sg.plateau >= 1
    ensures TrapezoidOf(n, sg).Ok? && n > 0
    ensures forall i :: 0 <= i < n ==>
      Normalize(TrapezoidOf(n, sg).value).value[i] == 2.0 * TrapezoidOf(n, sg).value[i] - 1.0
  {
    TrapezoidOfSpansUnit(n, sg);
    NormalizeUnitInterval(TrapezoidOf(n, sg).value);
  }

  lemma TrapezoidOfSpansUnit(n: nat, sg: Segments)
    requires sg.NonNegative() && sg.Total() <= n && sg.rise >= 1 && sg.plateau >= 1
    ensures TrapezoidOf(n, sg).Ok? && n > 0
    ensures Min(TrapezoidOf(n, sg).value) == 0.0 && Max(TrapezoidOf(n, sg).value) == 1.0
  {
    var up, down := Ramp(0.0, 1.0, sg.rise), Ramp(1.0, 0.0, sg.fall);
    TrapezoidFillLayout(n, sg, up, down);
    TrapezoidOfInUnitInterval(n, sg);
    var raw := TrapezoidOf(n, sg).value;
    LinspaceEnds(0.0, 1.0, sg.rise);
    assert raw[0] == TrapezoidSample(sg, up, down, 0) == 0.0;
    assert raw[sg.rise] == TrapezoidSample(sg, up, down, sg.rise) == 1.0;
    ExtremesAre(raw, 0, sg.rise);
  }

  /** For non-negative fractions no assignment raises, and the raw array is the
      `linspace(0, 1, rise)` ramp, the plateau at 1, the `linspace(1, 0, fall)` ramp,
      then zeros to the end. */
  lemma TrapezoidLayout(n: nat, riseFraction: real, plateauFraction: real, fallFraction: real)
    requires riseFraction >= 0.0 && plateauFraction >= 0.0 && fallFraction >= 0.0
    ensures TrapezoidRaw(n, riseFraction, plateauFraction, fallFraction).Ok?
    ensures TrapezoidSegments(n, riseFraction, plateauFraction, fallFraction).NonNegative()
    ensures forall i :: 0 <= i < n ==>
      var sg := TrapezoidSegments(n, riseFraction, plateauFraction, fallFraction);
      TrapezoidRaw(n, riseFraction, plateauFraction, fallFraction).value[i] ==
      TrapezoidSample(sg, Ramp(0.0, 1.0, sg.rise), Ramp(1.0, 0.0, sg.fall), i)
  {
    var sg := TrapezoidSegments(n, riseFraction, plateauFraction, fallFraction);
    TrapezoidSegmentsFit(n, riseFraction, plateauFraction, fallFraction);
    TrapezoidFillLayout(n, sg, Ramp(0.0, 1.0, sg.rise), Ramp(1.0, 0.0, sg.fall));
  }

  /** Every raw trapezoid sample lies in [0, 1]. */
  lemma TrapezoidRawInUnitInterval(n: nat, riseFraction: real, plateauFraction: real, fallFraction: real)
    requires riseFraction >= 0.0 && plateauFraction >= 0.0 && fallFraction >= 0.0
    ensures TrapezoidRaw(n, riseFraction, plateauFraction, fallFraction).Ok?
    ensures forall i :: 0 <= i < n ==>
      0.0 <= TrapezoidRaw(n, riseFraction, plateauFraction, fallFraction).value[i] <= 1.0
  {
    TrapezoidSegmentsFit(n, riseFraction, plateauFraction, fallFraction);
    TrapezoidOfInUnitInterval(n, TrapezoidSegments(n, riseFraction, plateauFraction, fallFraction));
  }

  /** When the trapezoid has a rise and a plateau the output is 2 * raw - 1: the rise
      runs from -1, the plateau sits at 1, the fall returns towards -1 and any tail is -1. */
  lemma TrapezoidNormalized(n: nat, riseFraction: real, plateauFraction: real, fallFraction: real)
    requires riseFraction >= 0.0 && plateauFraction >= 0.0 && fallFraction >= 0.0
    requires TrapezoidSegments(n, riseFraction, plateauFraction, fallFraction).rise >= 1
    requires TrapezoidSegments(n, riseFraction, plateauFraction, fallFraction).plateau >= 1
    ensures TrapezoidRaw(n, riseFraction, plateauFraction, fallFraction).Ok?
    ensures TrapezoidOutput(n, riseFraction, plateauFraction, fallFraction).Ok?
    ensures forall i :: 0 <= i < n ==>
      TrapezoidOutput(n, riseFraction, plateauFraction, fallFraction).value[i] ==
      2.0 * TrapezoidRaw(n, riseFraction, plateauFraction, fallFraction).value[i] - 1.0
  {
    TrapezoidSegmentsFit(n, riseFraction, plateauFraction, fallFraction);
    TrapezoidOfNormalized(n, TrapezoidSegments(n, riseFraction, plateauFraction, fallFraction));
  }

  /** With the default fractions and 5k points the segments are k, 3k and k samples and
      fill the array: the raw trapezoid starts at 0, is 1 on the plateau, and ends at 0
      from k = 2 on, while for k = 1 the one-sample fall ramp `linspace(1, 0, 1)` is [1]. */
  lemma TrapezoidDefaultRaw(k: nat)
    requires k >= 1
    ensures TrapezoidSegments(5 * k, 0.2, 0.6, 0.2) == Segments(k, 3 * k, k)
    ensures TrapezoidRaw(5 * k, 0.2, 0.6, 0.2).Ok?
    ensures TrapezoidRaw(5 * k, 0.2, 0.6, 0.2).value[0] == 0.0
    ensures forall i :: k <= i < 4 * k ==> TrapezoidRaw(5 * k, 0.2, 0.6, 0.2).value[i] == 1.0
    ensures TrapezoidRaw(5 * k, 0.2, 0.6, 0.2).value[5 * k - 1] == if k >= 2 then 0.0 else 1.0
  {
    var n := 5 * k;
    assert RequestedSegments(n, 0.2, 0.6, 0.2) == Segments(k, 3 * k, k) by {
      assert 0.2 * n as real == k as real;
      assert 0.6 * n as real == (3 * k) as real;
    }
    var sg := Segments(k, 3 * k, k);
    var up, down := Ramp(0.0, 1.0, k), Ramp(1.0, 0.0, k);
    TrapezoidLayout(n, 0.2, 0.6, 0.2);
    var raw := TrapezoidRaw(n, 0.2, 0.6, 0.2).value;
    LinspaceEnds(0.0, 1.0, k);
    LinspaceEnds(1.0, 0.0, k);
    assert raw[0] == TrapezoidSample(sg, up, down, 0);
    forall i | k <= i < 4 * k ensures raw[i] == 1.0 {
      assert raw[i] == TrapezoidSample(sg, up, down, i);
    }
    assert raw[n - 1] == TrapezoidSample(sg, up, down, n - 1);
  }

  /** The same output normalized: -1 first, 1 on the plateau, and a last sample of -1
      from k = 2 on but 1 for k = 1. */
  lemma TrapezoidDefaultFractions(k: nat)
    requires k >= 1
    ensures TrapezoidOutput(5 * k, 0.2, 0.6, 0.2).Ok?
    ensures TrapezoidOutput(5 * k, 0.2, 0.6, 0.2).value[0] == -1.0
    ensures forall i :: k <= i < 4 * k ==> TrapezoidOutput(5 * k, 0.2, 0.6, 0.2).value[i] == 1.0
    ensures TrapezoidOutput(5 * k, 0.2, 0.6, 0.2).value[5 * k - 1] == if k >= 2 then -1.0 else 1.0
  {
    var n := 5 * k;
    TrapezoidDefaultRaw(k);
    TrapezoidNormalized(n, 0.2, 0.6, 0.2);
    var raw := TrapezoidRaw(n, 0.2, 0.6, 0.2).value;
    var out := TrapezoidOutput(n, 0.2, 0.6, 0.2).value;
    assert out[0] == 2.0 * raw[0] - 1.0;
    assert out[n - 1] == 2.0 * raw[n - 1] - 1.0;
    forall i | k <= i < 4 * k ensures out[i] == 1.0 {
      assert out[i] == 2.0 * raw[i] - 1.0;
    }
  }

  /** Fractions 0.5, 0.5, 0.5 of 10 points request 15 samples; rise and plateau shrink
      to 3 each and fall takes the remaining 4. */
  lemma TrapezoidOverflowTenPoints()
    ensures RequestedSegments(10, 0.5, 0.5, 0.5) == Segments(5, 5, 5)
    ensures TrapezoidSegments(10, 0.5, 0.5, 0.5) == Segments(3, 3, 4)
  {
    assert Trunc(0.5 * 10 as real) == 5;
    assert Trunc(5 as real * (10 as real / 15 as real)) == 3;
  }

  /** The raw ramp up: `linspace(0, 1, n)`. */
  function RampUpOutput(numPoints: int): (r: Result<seq<real>>)
    ensures numPoints < 0 ==> r == Err(NegativeCount)
    ensures numPoints == 0 ==> r == Err(EmptyReduction)
    ensures numPoints > 0 ==> r.Ok? && |r.value| == numPoints
  {
    if numPoints < 0 then Err(NegativeCount) else Normalize(Linspace(0.0, 1.0, numPoints))
  }

  /** The raw ramp down: `linspace(1, 0, n)`. */
  function RampDownOutput(numPoints: int): (r: Result<seq<real>>)
    ensures numPoints < 0 ==> r == Err(NegativeCount)
    ensures numPoints == 0 ==> r == Err(EmptyReduction)
    ensures numPoints > 0 ==> r.Ok? && |r.value| == numPoints
  {
    if numPoints < 0 then Err(NegativeCount) else Normalize(Linspace(1.0, 0.0, numPoints))
  }

  /** From 2 points on, the normalized ramp up is the even ramp from -1 to 1; a single
      point gives [0]. */
  lemma RampUpNormalized(n: nat)
    requires n > 0
    ensures n >= 2 ==> RampUpOutput(n) == Ok(Linspace(-1.0, 1.0, n))
    ensures n == 1 ==> RampUpOutput(n) == Ok([0.0])
  {
    var raw := Linspace(0.0, 1.0, n);
    assert RampUpOutput(n) == Normalize(raw);
    if n >= 2 {
      var ys := Linspace(-1.0, 1.0, n);
      assert forall i :: 0 <= i < n ==> ys[i] == 2.0 * raw[i] - 1.0 by {
        forall i | 0 <= i < n ensures ys[i] == 2.0 * raw[i] - 1.0 {
          LinspaceAffine(0.0, 1.0, n, i, 2.0, -1.0, -1.0, 1.0);
        }
      }
      LinspaceExtremes(0.0, 1.0, n);
      NormalizeUnitIntervalSeq(raw, ys);
    } else {
      NormalizeZerosIffConstant(raw);
      assert Zeros(1) == [0.0];
    }
  }

  /** From 2 points on, the normalized ramp down is the even ramp from 1 to -1; a single
      point gives [0]. */
  lemma RampDownNormalized(n: nat)
    requires n > 0
    ensures n >= 2 ==> RampDownOutput(n) == Ok(Linspace(1.0, -1.0, n))
    ensures n == 1 ==> RampDownOutput(n) == Ok([0.0])
  {
    var raw := Linspace(1.0, 0.0, n);
    assert RampDownOutput(n) == Normalize(raw);
    if n >= 2 {
      var ys := Linspace(1.0, -1.0, n);
      assert forall i :: 0 <= i < n ==> ys[i] == 2.0 * raw[i] - 1.0 by {
        forall i | 0 <= i < n ensures ys[i] == 2.0 * raw[i] - 1.0 {
          LinspaceAffine(1.0, 0.0, n, i, 2.0, -1.0, 1.0, -1.0);
        }
      }
      LinspaceExtremes(1.0, 0.0, n);
      NormalizeUnitIntervalSeq(raw, ys);
    } else {
      NormalizeZerosIffConstant(raw);
      assert Zeros(1) == [0.0];
    }
  }

  /** With 4 points the ramp up is [-1, -1/3, 1/3, 1]. */
  lemma RampUpFourPoints()
    ensures RampUpOutput(4) == Ok([-1.0, -1.0 / 3.0, 1.0 / 3.0, 1.0])
  {
    RampUpNormalized(4);
    assert Linspace(-1.0, 1.0, 4) == [-1.0, -1.0 / 3.0, 1.0 / 3.0, 1.0];
  }

  /** The raw bipolar: `raw[:half] = 1.0` then `raw[half:] = -1.0` on n zeros. */
  function BipolarRaw(n: nat): (raw: seq<real>)
    ensures |raw| == n
  {
    SliceFilled(SliceFilled(Zeros(n), 0, n / 2, 1.0), n / 2, n, -1.0)
  }

  /** What `BipolarShape.generate` returns: the raw array, not normalized. */
  function BipolarOutput(numPoints: int): (r: Result<seq<real>>)
    ensures numPoints < 0 ==> r == Err(NegativeCount)
    ensures numPoints >= 0 ==> r.Ok? && |r.value| == numPoints
  {
    if numPoints < 0 then Err(NegativeCount) else Ok(BipolarRaw(numPoints))
  }

  /** The bipolar output is 1 below n // 2 and -1 from there on. */
  lemma BipolarHalves(n: nat)
    ensures forall i :: 0 <= i < n ==> BipolarRaw(n)[i] == if i < n / 2 then 1.0 else -1.0
  {
  }

  /** Leaving out normalize matters only for a single point: from 2 points on the
      bipolar array is its own normalization, while [-1] would normalize to [0] and
      the empty array would raise. */
  lemma BipolarSkipsNormalize(n: nat)
    ensures n >= 2 ==> Normalize(BipolarRaw(n)) == Ok(BipolarRaw(n))
    ensures n == 1 ==> BipolarRaw(n) == [-1.0] && Normalize(BipolarRaw(n)) == Ok([0.0])
    ensures n == 0 ==> BipolarOutput(n) == Ok([]) && Normalize(BipolarRaw(n)).Err?
  {
    var raw := BipolarRaw(n);
    BipolarHalves(n);
    if n >= 2 {
      ExtremesAre(raw, n - 1, 0);
      NormalizeFixesUnitRange(raw);
    } else if n == 1 {
      assert raw == [-1.0];
      NormalizeZerosIffConstant(raw);
      assert Zeros(1) == [0.0];
    }
  }

  /** With 4 points the bipolar output is exactly [1, 1, -1, -1]. */
  lemma BipolarFourPoints()
    ensures BipolarOutput(4) == Ok([1.0, 1.0, -1.0, -1.0])
  {
    BipolarHalves(4);
    assert BipolarRaw(4) == [1.0, 1.0, -1.0, -1.0];
  }

  /** shapes.py's `TrapezoidShape`. */
  class TrapezoidShape {
    var numPoints: int
    var riseFraction: real
    var plateauFraction: real
    var fallFraction: real
    var shape: Option<seq<real>>

    constructor (numPoints: int := 100, riseFraction: real := 0.2, plateauFraction: real := 0.6,
                 fallFraction: real := 0.2)
      ensures this.numPoints == numPoints && this.riseFraction == riseFraction
      ensures this.plateauFraction == plateauFraction && this.fallFraction == fallFraction
      ensures shape == Stored(TrapezoidOutput(numPoints, riseFraction, plateauFraction, fallFraction), None)
    {
      this.numPoints := numPoints;
      this.riseFraction := riseFraction;
      this.plateauFraction := plateauFraction;
      this.fallFraction := fallFraction;
      shape := None;
      new;
      var generated := Generate();
      assert shape == Stored(generated, None);
    }

    method Generate() returns (r: Result<seq<real>>)
      modifies this`shape
      ensures r == TrapezoidOutput(numPoints, riseFraction, plateauFraction, fallFraction)
      ensures shape == Stored(r, old(shape))
    {
      if numPoints < 0 {
        return Err(NegativeCount);
      }
      var sg := TrapezoidSegments(numPoints, riseFraction, plateauFraction, fallFraction);
      r := Build(numPoints, sg);
      if r.Ok? {
        shape := Some(r.value);
      }
    }

    /** The zero-filled raw array, the three slice writes, then normalize. */
    static method Build(n: nat, sg: Segments) returns (r: Result<seq<real>>)
      ensures r == TrapezoidOutputOf(n, sg)
    {
      var raw := new real[n](_ => 0.0);
      assert raw[..] == Zeros(n);
      var up, down := Ramp(0.0, 1.0, sg.rise), Ramp(1.0, 0.0, sg.fall);
      var filled := Fill(raw, sg, up, down);
      if !filled {
        return Err(BroadcastMismatch);
      }
      r := Normalize(raw[..]);
    }

    /** The three slice writes into the zero-filled raw array; false when one of them
        raises, which can only be a broadcast mismatch. */
    static method Fill(raw: array<real>, sg: Segments, up: seq<real>, down: seq<real>) returns (ok: bool)
      requires raw[..] == Zeros(raw.Length)
      modifies raw
      ensures ok == TrapezoidFill(raw.Length, sg, up, down).Ok?
      ensures !ok ==> TrapezoidFill(raw.Length, sg, up, down) == Err(BroadcastMismatch)
      ensures ok ==> raw[..] == TrapezoidFill(raw.Length, sg, up, down).value
    {
      ghost var s0 := raw[..];
      ok := RampInPlace(raw, 0, sg.rise, up);
      if !ok {
        return;
      }
      ghost var s1 := raw[..];
      PlateauInPlace(raw, sg.rise, sg.plateau);
      assert raw[..] == WritePlateau(s1, sg.rise, sg.plateau);
      ok := RampInPlace(raw, sg.rise + sg.plateau, sg.fall, down);
    }

    /** One guarded ramp write in place: WriteRamp of the old contents, and no change
        when it raises. */
    static method RampInPlace(raw: array<real>, start: int, count: int, v: seq<real>) returns (ok: bool)
      modifies raw
      ensures ok == WriteRamp(old(raw[..]), start, count, v).Ok?
      ensures !ok ==> WriteRamp(old(raw[..]), start, count, v) == Err(BroadcastMismatch)
      ensures ok ==> raw[..] == WriteRamp(old(raw[..]), start, count, v).value
    {
      ok := true;
      if count > 0 {
        ok := AssignSlice(raw, start, start + count, v);
      }
    }

    /** The guarded plateau write in place: WritePlateau of the old contents. */
    static method PlateauInPlace(raw: array<real>, start: int, count: int)
      modifies raw
      ensures raw[..] == WritePlateau(old(raw[..]), start, count)
    {
      if count > 0 {
        FillSlice(raw, start, start + count, 1.0);
      }
    }
  }

  /** shapes.py's `RampUpShape`. */
  class RampUpShape {
    var numPoints: int
    var shape: Option<seq<real>>

    constructor (numPoints: int := 100)
      ensures this.numPoints == numPoints
      ensures shape == Stored(RampUpOutput(numPoints), None)
    {
      this.numPoints := numPoints;
      shape := None;
      new;
      var generated := Generate();
    }

    method Generate() returns (r: Result<seq<real>>)
      modifies this`shape
      ensures r == RampUpOutput(numPoints)
      ensures shape == Stored(r, old(shape))
    {
      if numPoints < 0 {
        return Err(NegativeCount);
      }
      r := Normalize(Linspace(0.0, 1.0, numPoints));
      if r.Ok? {
        shape := Some(r.value);
      }
    }
  }

  /** shapes.py's `RampDownShape`. */
  class RampDownShape {
    var numPoints: int
    var shape: Option<seq<real>>

    constructor (numPoints: int := 100)
      ensures this.numPoints == numPoints
      ensures shape == Stored(RampDownOutput(numPoints), None)
    {
      this.numPoints := numPoints;
      shape := None;
      new;
      var generated := Generate();
    }

    method Generate() returns (r: Result<seq<real>>)
      modifies this`shape
      ensures r == RampDownOutput(numPoints)
      ensures shape == Stored(r, old(shape))
    {
      if numPoints < 0 {
        return Err(NegativeCount);
      }
      r := Normalize(Linspace(1.0, 0.0, numPoints));
      if r.Ok? {
        shape := Some(r.value);
      }
    }
  }

  /** shapes.py's `BipolarShape`. */
  class BipolarShape {
    var numPoints: int
    var shape: Option<seq<real>>

    constructor (numPoints: int := 100)
      ensures this.numPoints == numPoints
      ensures shape == Stored(BipolarOutput(numPoints), None)
    {
      this.numPoints := numPoints;
      shape := None;
      new;
      var generated := Generate();
    }

    method Generate() returns (r: Result<seq<real>>)
      modifies this`shape
      ensures r == BipolarOutput(numPoints)
      ensures shape == Stored(r, old(shape))
    {
      var half := numPoints / 2;
      if numPoints < 0 {
        return Err(NegativeCount);
      }
      var raw := new real[numPoints](_ => 0.0);
      assert raw[..] == Zeros(numPoints);
      FillSlice(raw, 0, half, 1.0);
      FillSlice(raw, half, numPoints, -1.0);
      shape := Some(raw[..]);
      r := Ok(raw[..]);
    }
  }
}
