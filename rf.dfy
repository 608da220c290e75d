/** The RF pulse shapes of shapes.py that are built from windows on a linspace time
    axis: rectangular, composite and DANTE. */
module RfShapes {
  import opened NumPy
  import opened Base

  // ---------------------------------------------------------------------------
  // Rectangular
  // ---------------------------------------------------------------------------

  /** The raw rectangular pulse: `numpy.where(abs(t) <= 0.8, 1.0, 0.0)` on
      `t = linspace(-1, 1, n)`. */
  function RectangularRaw(n: nat): (raw: seq<real>)
    ensures |raw| == n
  {
    var t := Linspace(-1.0, 1.0, n);
    seq(n, i requires 0 <= i < n => if Abs(t[i]) <= 0.8 then 1.0 else 0.0)
  }

  /** What `RectangularShape.generate` returns or raises for a point count. */
  function RectangularOutput(numPoints: int): (r: Result<seq<real>>)
    ensures numPoints < 0 ==> r == Err(NegativeCount)
    ensures numPoints == 0 ==> r == Err(EmptyReduction)
    ensures numPoints > 0 ==> r.Ok? && |r.value| == numPoints
  {
    if numPoints < 0 then Err(NegativeCount) else Normalize(RectangularRaw(numPoints))
  }

  /** `|-1 + 2x/m| <= 0.8` holds exactly when `0.1 m <= x <= 0.9 m`. */
  lemma CentredWithin(x: real, m: real)
    requires m > 0.0
    ensures Abs(-1.0 + x * 2.0 / m) <= 0.8 <==> 0.1 * m <= x <= 0.9 * m
  {
    var q := x * 2.0 / m;
    assert q * m == 2.0 * x;
    if 0.1 * m <= x <= 0.9 * m {
      assert 0.2 <= q <= 1.8 by {
        assert q * m >= 0.2 * m;
        assert q * m <= 1.8 * m;
      }
    }
    if 0.2 <= q <= 1.8 {
      assert 0.2 * m <= q * m <= 1.8 * m;
    }
  }

  /** From 2 points on, sample i is 1 exactly when `(n - 1) / 10 <= i <= 9 (n - 1) / 10`,
      the indices whose time lies within 0.8 of the centre. */
  lemma RectangularWindow(n: nat, i: nat)
    requires n >= 2 && i < n
    ensures RectangularRaw(n)[i] == if n - 1 <= 10 * i <= 9 * (n - 1) then 1.0 else 0.0
  {
    var m := (n - 1) as real;
    assert Linspace(-1.0, 1.0, n)[i] == -1.0 + (i as real) * 2.0 / m;
    CentredWithin(i as real, m);
    assert (0.1 * m <= i as real <= 0.9 * m) <==> (n - 1 <= 10 * i <= 9 * (n - 1));
  }

  /** The rectangular pulse is symmetric about the centre of the array. */
  lemma RectangularSymmetric(n: nat, i: nat)
    requires i < n
    ensures RectangularRaw(n)[i] == RectangularRaw(n)[n - 1 - i]
  {
    if n >= 2 {
      RectangularWindow(n, i);
      RectangularWindow(n, n - 1 - i);
    }
  }

  /** From 3 points on the window holds the middle sample and misses the first one. */
  lemma RectangularSpansUnit(n: nat)
    requires n >= 3
    ensures Min(RectangularRaw(n)) == 0.0 && Max(RectangularRaw(n)) == 1.0
    ensures forall i :: 0 <= i < n ==>
      RectangularRaw(n)[i] == if n - 1 <= 10 * i <= 9 * (n - 1) then 1.0 else 0.0
  {
    var raw := RectangularRaw(n);
    forall i | 0 <= i < n ensures raw[i] == if n - 1 <= 10 * i <= 9 * (n - 1) then 1.0 else 0.0 {
      RectangularWindow(n, i);
    }
    ExtremesAre(raw, 0, (n - 1) / 2);
  }

  /** ... so from 3 points on the output is 1 inside the window and -1 outside it. */
  lemma RectangularNormalized(n: nat)
    requires n >= 3
    ensures RectangularOutput(n).Ok?
    ensures forall i :: 0 <= i < n ==>
      RectangularOutput(n).value[i] == if n - 1 <= 10 * i <= 9 * (n - 1) then 1.0 else -1.0
  {
    RectangularSpansUnit(n);
    NormalizeUnitInterval(RectangularRaw(n));
  }

  /** One or two points place no sample inside the window: the raw array is all zeros
      and so is the output. */
  lemma RectangularTooShort(n: nat)
    requires 1 <= n <= 2
    ensures RectangularRaw(n) == Zeros(n)
    ensures RectangularOutput(n) == Ok(Zeros(n))
  {
    var raw := RectangularRaw(n);
    if n == 2 {
      RectangularWindow(2, 0);
      RectangularWindow(2, 1);
    }
    assert raw == Zeros(n);
    NormalizeZerosIffConstant(raw);
  }

  // ---------------------------------------------------------------------------
  // Composite
  // ---------------------------------------------------------------------------

  /** The raw composite pulse: on `t = linspace(-2, 2, n)` and n zeros, the mask
      `|t + 1.2| <= 0.3` is set to 0.5, then `|t| <= 0.4` to 1.0, then `|t - 1.2| <= 0.3`
      to 0.5. */
  function CompositeRaw(n: nat): (raw: seq<real>)
    ensures |raw| == n
  {
    var t := Linspace(-2.0, 2.0, n);
    var s1 := MaskFilled(Zeros(n), t, -1.2, 0.3, 0.5);
    var s2 := MaskFilled(s1, t, 0.0, 0.4, 1.0);
    MaskFilled(s2, t, 1.2, 0.3, 0.5)
  }

  /** What `CompositeShape.generate` returns or raises for a point count. */
  function CompositeOutput(numPoints: int): (r: Result<seq<real>>)
    ensures numPoints < 0 ==> r == Err(NegativeCount)
    ensures numPoints == 0 ==> r == Err(EmptyReduction)
    ensures numPoints > 0 ==> r.Ok? && |r.value| == numPoints
  {
    if numPoints < 0 then Err(NegativeCount) else Normalize(CompositeRaw(numPoints))
  }

  /** The level the composite pulse should have at time x: 0.5 in either side lobe,
      1 in the main lobe, 0 elsewhere. The three lobes are disjoint, so this does not
      depend on the order of the writes. */
  function CompositeLevel(x: real): (y: real)
    ensures y == 0.0 || y == 0.5 || y == 1.0
  {
    if Abs(x + 1.2) <= 0.3 || Abs(x - 1.2) <= 0.3 then 0.5
    else if Abs(x) <= 0.4 then 1.0
    else 0.0
  }

  /** Each raw composite sample is the level of its time. */
  lemma CompositeAt(n: nat, i: nat)
    requires i < n
    ensures CompositeRaw(n)[i] == CompositeLevel(Linspace(-2.0, 2.0, n)[i])
  {
  }

  /** For an odd count the middle time is exactly 0; for an even count of at least 6
      the time just left of the middle is within 0.4 of 0. */
  lemma MiddleTime(n: nat)
    requires n >= 3 && (n % 2 == 1 || n >= 6)
    ensures Abs(Linspace(-2.0, 2.0, n)[(n - 1) / 2]) <= 0.4
  {
    var m := (n - 1) as real;
    var j := (n - 1) / 2;
    var x := Linspace(-2.0, 2.0, n)[j];
    assert x == -2.0 + (j as real) * 4.0 / m;
    if n % 2 == 1 {
      assert (j as real) * 2.0 == m;
      assert (j as real) * 4.0 / m == 2.0;
    } else {
      assert (j as real) * 2.0 == m - 1.0;
      var q := (j as real) * 4.0 / m;
      assert q * m == 2.0 * m - 2.0;
      assert q == 2.0 - 2.0 / m by {
        assert (2.0 - 2.0 / m) * m == 2.0 * m - 2.0;
      }
      assert 2.0 / m <= 0.4 by {
        assert (2.0 / m) * m == 2.0;
      }
    }
  }

  /** When the main lobe holds a sample (an odd count from 3, or any count from 6),
      the raw samples reach both 0 (the first one) and 1. */
  lemma CompositeSpansUnit(n: nat)
    requires n >= 3 && (n % 2 == 1 || n >= 6)
    ensures Min(CompositeRaw(n)) == 0.0 && Max(CompositeRaw(n)) == 1.0
  {
    var raw := CompositeRaw(n);
    var t := Linspace(-2.0, 2.0, n);
    LinspaceEnds(-2.0, 2.0, n);
    MiddleTime(n);
    assert raw[0] == CompositeLevel(t[0]) == 0.0;
    assert raw[(n - 1) / 2] == CompositeLevel(t[(n - 1) / 2]) == 1.0;
    ExtremesAre(raw, 0, (n - 1) / 2);
  }

  /** ... so normalizing maps each raw sample x to 2 * x - 1 ... */
  lemma CompositeAffine(n: nat)
    requires n >= 3 && (n % 2 == 1 || n >= 6)
    ensures forall i :: 0 <= i < n ==> Normalize(CompositeRaw(n)).value[i] == 2.0 * CompositeRaw(n)[i] - 1.0
  {
    CompositeSpansUnit(n);
    NormalizeUnitInterval(CompositeRaw(n));
  }

  /** ... which is 1 in the main lobe, 0 in the side lobes and -1 elsewhere. */
  lemma CompositeNormalized(n: nat)
    requires n >= 3 && (n % 2 == 1 || n >= 6)
    ensures CompositeOutput(n).Ok?
    ensures forall i :: 0 <= i < n ==>
      CompositeOutput(n).value[i] == 2.0 * CompositeLevel(Linspace(-2.0, 2.0, n)[i]) - 1.0
  {
    CompositeAffine(n);
    forall i | 0 <= i < n
      ensures CompositeOutput(n).value[i] == 2.0 * CompositeLevel(Linspace(-2.0, 2.0, n)[i]) - 1.0
    {
      CompositeAt(n, i);
    }
  }

  // ---------------------------------------------------------------------------
  // DANTE
  // ---------------------------------------------------------------------------

  /** The times at which pulse p is centred: `-1.8 + p * spacing`. */
  function PulseCenter(p: nat, spacing: real): (c: real)
  {
    -1.8 + p as real * spacing
  }

  /** The amplitude of pulse p: `0.25 * (1 + 0.5 * sin(p))`, with sin given. */
  function PulseAmplitude(p: nat, sine: real -> real): (a: real)
  {
    0.25 * (1.0 + 0.5 * sine(p as real))
  }

  /** Pulse p's mask `|t - center| <= pulse_width` holds at time x. */
  predicate Covers(x: real, p: nat, width: real, spacing: real)
  {
    Abs(x - PulseCenter(p, spacing)) <= width
  }

  /** The raw DANTE train after the first `pulses` iterations of the loop: each
      iteration sets its pulse's mask to its amplitude, over what earlier ones wrote. */
  function DanteRaw(t: seq<real>, pulses: nat, width: real, spacing: real, sine: real -> real): (raw: seq<real>)
    ensures |raw| == |t|
  {
    if pulses == 0 then Zeros(|t|)
    else
      var p := pulses - 1;
      MaskFilled(DanteRaw(t, p, width, spacing, sine), t, PulseCenter(p, spacing), width, PulseAmplitude(p, sine))
  }

  /** `range(num_pulses)` is empty for a negative count. */
  function PulseCount(numPulses: int): (k: nat)
    ensures numPulses >= 0 ==> k == numPulses
    ensures numPulses < 0 ==> k == 0
  {
    if numPulses > 0 then numPulses else 0
  }

  /** A non-positive pulse count runs the loop zero times: the raw train stays all
      zeros, and for a non-empty time axis the output is all zeros. */
  lemma DanteNoPulses(numPoints: nat, numPulses: int, width: real, spacing: real, sine: real -> real)
    requires numPulses <= 0
    ensures DanteRaw(Linspace(-2.0, 2.0, numPoints), PulseCount(numPulses), width, spacing, sine) == Zeros(numPoints)
    ensures numPoints > 0 ==> DanteOutput(numPoints, numPulses, width, spacing, sine) == Ok(Zeros(numPoints))
  {
    var raw := DanteRaw(Linspace(-2.0, 2.0, numPoints), PulseCount(numPulses), width, spacing, sine);
    assert raw == Zeros(numPoints);
    if numPoints > 0 {
      NormalizeZerosIffConstant(raw);
    }
  }

  /** What `DanteShape.generate` returns or raises. */
  function DanteOutput(numPoints: int, numPulses: int, width: real, spacing: real, sine: real -> real): (r: Result<seq<real>>)
    ensures numPoints < 0 ==> r == Err(NegativeCount)
    ensures numPoints == 0 ==> r == Err(EmptyReduction)
    ensures numPoints > 0 ==> r.Ok? && |r.value| == numPoints
  {
    if numPoints < 0 then Err(NegativeCount)
    else Normalize(DanteRaw(Linspace(-2.0, 2.0, numPoints), PulseCount(numPulses), width, spacing, sine))
  }

  /** One loop iteration: pulse `pulses - 1` sets the samples its mask covers and
      leaves the others as they were. */
  lemma DanteStep(t: seq<real>, pulses: nat, width: real, spacing: real, sine: real -> real, i: nat)
    requires i < |t| && pulses > 0
    ensures DanteRaw(t, pulses, width, spacing, sine)[i] ==
      if Covers(t[i], pulses - 1, width, spacing) then PulseAmplitude(pulses - 1, sine)
      else DanteRaw(t, pulses - 1, width, spacing, sine)[i]
  {
  }

  /** A sample that no pulse's mask covers stays 0. */
  lemma {:induction false} DanteUncovered(t: seq<real>, pulses: nat, width: real, spacing: real, sine: real -> real, i: nat)
    requires i < |t|
    requires forall p :: 0 <= p < pulses ==> !Covers(t[i], p, width, spacing)
    ensures DanteRaw(t, pulses, width, spacing, sine)[i] == 0.0
  {
    if pulses > 0 {
      DanteStep(t, pulses, width, spacing, sine, i);
      DanteUncovered(t, pulses - 1, width, spacing, sine, i);
    }
  }

  /** A sample that pulse p covers, and no later pulse covers, holds pulse p's
      amplitude: later iterations overwrite earlier ones. */
  lemma {:induction false} DanteLastCover(t: seq<real>, pulses: nat, width: real, spacing: real, sine: real -> real, i: nat, p: nat)
    requires i < |t| && p < pulses
    requires Covers(t[i], p, width, spacing)
    requires forall q :: p < q < pulses ==> !Covers(t[i], q, width, spacing)
    ensures DanteRaw(t, pulses, width, spacing, sine)[i] == PulseAmplitude(p, sine)
  {
    DanteStep(t, pulses, width, spacing, sine, i);
    if p < pulses - 1 {
      DanteLastCover(t, pulses - 1, width, spacing, sine, i, p);
    }
  }

  /** Two pulses are at least one spacing apart. */
  lemma PulsesApart(p: nat, q: nat, spacing: real)
    requires p < q && spacing > 0.0
    ensures PulseCenter(q, spacing) - PulseCenter(p, spacing) >= spacing
  {
    var k := (q - p) as real;
    assert PulseCenter(q, spacing) - PulseCenter(p, spacing) == k * spacing;
    assert k * spacing - spacing == (k - 1.0) * spacing;
  }

  /** When the spacing exceeds twice the width no two masks share a time. */
  lemma MasksDisjoint(x: real, p: nat, q: nat, width: real, spacing: real)
    requires spacing > 2.0 * width && p != q
    ensures !(Covers(x, p, width, spacing) && Covers(x, q, width, spacing))
  {
    if Covers(x, p, width, spacing) && Covers(x, q, width, spacing) {
      var lo, hi := if p < q then p else q, if p < q then q else p;
      PulsesApart(lo, hi, spacing);
      assert false;
    }
  }

  /** When the spacing exceeds twice the width (as with the defaults 0.32 and 0.08),
      a sample covered by pulse p holds exactly pulse p's amplitude. */
  lemma DanteSeparated(t: seq<real>, pulses: nat, width: real, spacing: real, sine: real -> real, i: nat, p: nat)
    requires i < |t| && p < pulses
    requires spacing > 2.0 * width
    requires Covers(t[i], p, width, spacing)
    ensures DanteRaw(t, pulses, width, spacing, sine)[i] == PulseAmplitude(p, sine)
  {
    forall q | p < q < pulses ensures !Covers(t[i], q, width, spacing) {
      MasksDisjoint(t[i], p, q, width, spacing);
    }
    DanteLastCover(t, pulses, width, spacing, sine, i, p);
  }

  /** For sine values in [-1, 1], every amplitude lies in [0.125, 0.375]. */
  lemma PulseAmplitudeBounds(p: nat, sine: real -> real)
    requires -1.0 <= sine(p as real) <= 1.0
    ensures 0.125 <= PulseAmplitude(p, sine) <= 0.375
  {
  }

  // ---------------------------------------------------------------------------
  // Classes
  // ---------------------------------------------------------------------------

  /** shapes.py's `RectangularShape`. */
  class RectangularShape {
    var numPoints: int
    var shape: Option<seq<real>>

    constructor (numPoints: int := 100)
      ensures this.numPoints == numPoints
      ensures shape == Stored(RectangularOutput(numPoints), None)
    {
      this.numPoints := numPoints;
      shape := None;
      new;
      var generated := Generate();
    }

    method Generate() returns (r: Result<seq<real>>)
      modifies this`shape
      ensures r == RectangularOutput(numPoints)
      ensures shape == Stored(r, old(shape))
    {
      if numPoints < 0 {
        return Err(NegativeCount);
      }
      r := Normalize(RectangularRaw(numPoints));
      if r.Ok? {
        shape := Some(r.value);
      }
    }
  }

  /** shapes.py's `CompositeShape`. */
  class CompositeShape {
    var numPoints: int
    var shape: Option<seq<real>>

    constructor (numPoints: int := 100)
      ensures this.numPoints == numPoints
      ensures shape == Stored(CompositeOutput(numPoints), None)
    {
      this.numPoints := numPoints;
      shape := None;
      new;
      var generated := Generate();
    }

    method Generate() returns (r: Result<seq<real>>)
      modifies this`shape
      ensures r == CompositeOutput(numPoints)
      ensures shape == Stored(r, old(shape))
    {
      if numPoints < 0 {
        return Err(NegativeCount);
      }
      var t := Linspace(-2.0, 2.0, numPoints);
      var raw := new real[numPoints](_ => 0.0);
      assert raw[..] == Zeros(numPoints);
      FillWhere(raw, t, -1.2, 0.3, 0.5);
      FillWhere(raw, t, 0.0, 0.4, 1.0);
      FillWhere(raw, t, 1.2, 0.3, 0.5);
      r := Normalize(raw[..]);
      if r.Ok? {
        shape := Some(r.value);
      }
    }
  }

  /** shapes.py's `DanteShape`; `sine` stands for `numpy.sin`. */
  class DanteShape {
    var numPoints: int
    var numPulses: int
    var pulseWidth: real
    var spacing: real
    var sine: real -> real
    var shape: Option<seq<real>>

    constructor (sine: real -> real, numPoints: int := 100, numPulses: int := 12,
                 pulseWidth: real := 0.08, spacing: real := 0.32)
      ensures this.numPoints == numPoints && this.numPulses == numPulses
      ensures this.pulseWidth == pulseWidth && this.spacing == spacing && this.sine == sine
      ensures shape == Stored(DanteOutput(numPoints, numPulses, pulseWidth, spacing, sine), None)
    {
      this.numPoints := numPoints;
      this.numPulses := numPulses;
      this.pulseWidth := pulseWidth;
      this.spacing := spacing;
      this.sine := sine;
      shape := None;
      new;
      var generated := Generate();
    }

    method Generate() returns (r: Result<seq<real>>)
      modifies this`shape
      ensures r == DanteOutput(numPoints, numPulses, pulseWidth, spacing, sine)
      ensures shape == Stored(r, old(shape))
    {
      if numPoints < 0 {
        return Err(NegativeCount);
      }
      var t := Linspace(-2.0, 2.0, numPoints);
      var raw := new real[numPoints](_ => 0.0);
      assert raw[..] == Zeros(numPoints);
      var pulses := PulseCount(numPulses);
      for p := 0 to pulses
        invariant raw[..] == DanteRaw(t, p, pulseWidth, spacing, sine)
        invariant shape == old(shape)
      {
        FillWhere(raw, t, PulseCenter(p, spacing), pulseWidth, PulseAmplitude(p, sine));
      }
      r := Normalize(raw[..]);
      if r.Ok? {
        shape := Some(r.value);
      }
    }
  }
}
