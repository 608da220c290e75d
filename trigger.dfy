/** The trigger and flag shapes of shapes.py: index-space markers written into a
    zero-filled array and then normalized. */
module TriggerShapes {
  import opened NumPy
  import opened Base

  /** The raw trigger: `raw[center-5:center+5] = 1.0` on n zeros, center = n // 2,
      under Python's slice rules (a negative start counts from the end). */
  function TriggerRaw(n: nat): (raw: seq<real>)
    ensures |raw| == n
  {
    SliceFilled(Zeros(n), n / 2 - 5, n / 2 + 5, 1.0)
  }

  /** What `TriggerShape.generate` returns or raises for a point count. */
  function TriggerOutput(numPoints: int): (r: Result<seq<real>>)
    ensures numPoints < 0 ==> r == Err(NegativeCount)
    ensures numPoints == 0 ==> r == Err(EmptyReduction)
    ensures numPoints > 0 ==> r.Ok? && |r.value| == numPoints
  {
    if numPoints < 0 then Err(NegativeCount) else Normalize(TriggerRaw(numPoints))
  }

  /** From 10 points on, the raw trigger is 1 exactly on the ten indices
      [n // 2 - 5, n // 2 + 5) and 0 everywhere else. */
  lemma TriggerWindow(n: nat)
    requires n >= 10
    ensures forall i :: 0 <= i < n ==>
      TriggerRaw(n)[i] == if n / 2 - 5 <= i < n / 2 + 5 then 1.0 else 0.0
  {
  }

  /** Below 10 points the negative slice start wraps around: for 9 points only the
      last sample is set. */
  lemma TriggerWrapsAtNine()
    ensures TriggerRaw(9) == [0.0, 0.0, 0.0, 0.0, 0.0, 0.0, 0.0, 0.0, 1.0]
  {
    assert SliceIndex(9 / 2 - 5, 9) == 8 && SliceIndex(9 / 2 + 5, 9) == 9;
  }

  /** From 11 points on, the normalized trigger is 1 on its window and -1 elsewhere. */
  lemma TriggerNormalized(n: nat)
    requires n > 10
    ensures TriggerOutput(n).Ok?
    ensures forall i :: 0 <= i < n ==>
      TriggerOutput(n).value[i] == if n / 2 - 5 <= i < n / 2 + 5 then 1.0 else -1.0
  {
    var raw := TriggerRaw(n);
    TriggerWindow(n);
    ExtremesAre(raw, n - 1, n / 2);
    NormalizeUnitInterval(raw);
    assert TriggerOutput(n) == Normalize(raw);
    var y := Normalize(raw).value;
    forall i | 0 <= i < n ensures y[i] == if n / 2 - 5 <= i < n / 2 + 5 then 1.0 else -1.0 {
      assert y[i] == 2.0 * raw[i] - 1.0;
    }
  }

  /** With exactly 10 points every sample is in the window, the raw array is
      constant, and the output is all zeros. */
  lemma TriggerTenIsFlat()
    ensures TriggerOutput(10) == Ok(Zeros(10))
  {
    TriggerWindow(10);
    NormalizeZerosIffConstant(TriggerRaw(10));
  }

  /** The raw flag: `raw[n // 2] = 1.0` on n zeros; IndexError for an empty array. */
  function FlagRaw(n: nat): (r: Result<seq<real>>)
    ensures r.Ok? <==> n > 0
  {
    ItemAssigned(Zeros(n), n / 2, 1.0)
  }

  /** What `FlagShape.generate` returns or raises for a point count. */
  function FlagOutput(numPoints: int): (r: Result<seq<real>>)
    ensures numPoints < 0 ==> r == Err(NegativeCount)
    ensures numPoints == 0 ==> r == Err(IndexOutOfRange)
    ensures numPoints > 0 ==> r.Ok? && |r.value| == numPoints
  {
    if numPoints < 0 then Err(NegativeCount)
    else
      var raw :- FlagRaw(numPoints);
      Normalize(raw)
  }

  /** The raw flag is 1 only at index n // 2. */
  lemma FlagSpike(n: nat)
    requires n > 0
    ensures FlagRaw(n).Ok?
    ensures forall i :: 0 <= i < n ==> FlagRaw(n).value[i] == if i == n / 2 then 1.0 else 0.0
  {
  }

  /** From 2 points on, the normalized flag is 1 at index n // 2 and -1 elsewhere;
      a single point gives [0]. */
  lemma FlagNormalized(n: nat)
    requires n > 0
    ensures FlagOutput(n).Ok?
    ensures n >= 2 ==> forall i :: 0 <= i < n ==>
      FlagOutput(n).value[i] == if i == n / 2 then 1.0 else -1.0
    ensures n == 1 ==> FlagOutput(n).value == [0.0]
  {
    FlagSpike(n);
    var raw := FlagRaw(n).value;
    assert FlagOutput(n) == Normalize(raw);
    if n >= 2 {
      ExtremesAre(raw, 0, n / 2);
      NormalizeUnitInterval(raw);
      var y := Normalize(raw).value;
      forall i | 0 <= i < n ensures y[i] == if i == n / 2 then 1.0 else -1.0 {
        assert y[i] == 2.0 * raw[i] - 1.0;
      }
    } else {
      NormalizeZerosIffConstant(raw);
    }
  }

  /** shapes.py's `TriggerShape`. */
  class TriggerShape {
    var numPoints: int
    var shape: Option<seq<real>>

    /** Stores the point count and generates; a count for which `generate` raises
        leaves `shape` as None. */
    constructor (numPoints: int := 100)
      ensures this.numPoints == numPoints
      ensures shape == Stored(TriggerOutput(numPoints), None)
    {
      this.numPoints := numPoints;
      shape := None;
      new;
      var generated := Generate();
    }

    method Generate() returns (r: Result<seq<real>>)
      modifies this`shape
      ensures r == TriggerOutput(numPoints)
      ensures shape == Stored(r, old(shape))
    {
      if numPoints < 0 {
        return Err(NegativeCount);
      }
      var raw := new real[numPoints](_ => 0.0);
      assert raw[..] == Zeros(numPoints);
      var center := numPoints / 2;
      FillSlice(raw, center - 5, center + 5, 1.0);
      assert raw[..] == TriggerRaw(numPoints);
      r := Normalize(raw[..]);
      if r.Ok? {
        shape := Some(r.value);
      }
    }
  }

  /** shapes.py's `FlagShape`. */
  class FlagShape {
    var numPoints: int
    var shape: Option<seq<real>>

    constructor (numPoints: int := 100)
      ensures this.numPoints == numPoints
      ensures shape == Stored(FlagOutput(numPoints), None)
    {
      this.numPoints := numPoints;
      shape := None;
      new;
      var generated := Generate();
    }

    method Generate() returns (r: Result<seq<real>>)
      modifies this`shape
      ensures r == FlagOutput(numPoints)
      ensures shape == Stored(r, old(shape))
    {
      if numPoints < 0 {
        return Err(NegativeCount);
      }
      var raw := new real[numPoints](_ => 0.0);
      assert raw[..] == Zeros(numPoints);
      var center := numPoints / 2;
      if center >= raw.Length {
        return Err(IndexOutOfRange);
      }
      raw[center] := 1.0;
      r := Normalize(raw[..]);
      if r.Ok? {
        shape := Some(r.value);
      }
    }
  }
}
