/** The base contract every shape shares: the `Shape` state (point count and the
    memoised sample array) and the normalisation of a raw array into [-1, 1]. */
module Base {
  import opened NumPy

  /** Python's `None` or a value. */
  datatype Option<T> = None | Some(value: T)

  /** What `self.shape` holds after `generate` ran: the new array when it returned,
      the old value when it raised before the assignment. */
  function Stored(r: Result<seq<real>>, previous: Option<seq<real>>): (stored: Option<seq<real>>)
  {
    if r.Ok? then Some(r.value) else previous
  }

  /** The affine map 2 * (x - lo) / (hi - lo) - 1 that sends lo to -1 and hi to 1. */
  function Rescale(x: real, lo: real, hi: real): (y: real)
    requires lo < hi
    ensures lo <= x <= hi ==> -1.0 <= y <= 1.0
    ensures x == lo ==> y == -1.0
    ensures x == hi ==> y == 1.0
  {
    var d := hi - lo;
    var q := (x - lo) / d;
    assert lo <= x <= hi ==> 0.0 <= q <= 1.0 by {
      if lo <= x <= hi {
        RatioNonnegative(x - lo, d);
        RatioAtMostOne(x - lo, d);
      }
    }
    2.0 * q - 1.0
  }

  /** Rescale keeps order, in both directions. */
  lemma RescaleMonotone(x: real, x': real, lo: real, hi: real)
    requires lo < hi
    ensures x <= x' <==> Rescale(x, lo, hi) <= Rescale(x', lo, hi)
  {
    var d := hi - lo;
    assert (x' - lo) / d - (x - lo) / d == (x' - x) / d;
    assert ((x' - x) / d) * d == x' - x;
  }

  /** shapes.py's `Shape.normalize`: all zeros for a constant array, otherwise the
      affine rescale of min..max onto -1..1; numpy raises for an empty array. */
  function Normalize(data: seq<real>): (r: Result<seq<real>>)
    ensures r.Ok? <==> |data| > 0
    ensures r.Err? ==> r.error == EmptyReduction
    ensures r.Ok? ==> |r.value| == |data|
    ensures r.Ok? ==> forall i :: 0 <= i < |data| ==> -1.0 <= r.value[i] <= 1.0
  {
    if |data| == 0 then Err(EmptyReduction)
    else
      var lo, hi := Min(data), Max(data);
      if hi == lo then Ok(Zeros(|data|))
      else Ok(seq(|data|, i requires 0 <= i < |data| => Rescale(data[i], lo, hi)))
  }

  /** Sample i of a normalized array. */
  lemma NormalizeAt(data: seq<real>, i: nat)
    requires i < |data|
    ensures Normalize(data).value[i] ==
      if Min(data) == Max(data) then 0.0 else Rescale(data[i], Min(data), Max(data))
  {
  }

  /** All samples are equal. */
  ghost predicate Constant(s: seq<real>)
  {
    forall i, j :: 0 <= i < |s| && 0 <= j < |s| ==> s[i] == s[j]
  }

  lemma ConstantIffFlat(s: seq<real>)
    requires |s| > 0
    ensures Constant(s) <==> Min(s) == Max(s)
  {
    if Min(s) == Max(s) {
      forall i, j | 0 <= i < |s| && 0 <= j < |s| ensures s[i] == s[j] {
        assert Min(s) <= s[i] <= Max(s) && Min(s) <= s[j] <= Max(s);
      }
    }
  }

  /** Normalize returns all zeros exactly for a constant array (never dividing by zero). */
  lemma NormalizeZerosIffConstant(data: seq<real>)
    requires |data| > 0
    ensures Normalize(data) == Ok(Zeros(|data|)) <==> Constant(data)
  {
    ConstantIffFlat(data);
    if !Constant(data) {
      var k :| 0 <= k < |data| && data[k] == Max(data);
      assert Normalize(data).value[k] == 1.0;
      assert Zeros(|data|)[k] == 0.0;
    }
  }

  /** For a non-constant array the minimum goes to exactly -1, the maximum to exactly 1,
      so the output spans the whole of [-1, 1]. */
  lemma NormalizeSpansRange(data: seq<real>)
    requires |data| > 0 && !Constant(data)
    ensures forall i :: 0 <= i < |data| && data[i] == Min(data) ==> Normalize(data).value[i] == -1.0
    ensures forall i :: 0 <= i < |data| && data[i] == Max(data) ==> Normalize(data).value[i] == 1.0
    ensures Min(Normalize(data).value) == -1.0 && Max(Normalize(data).value) == 1.0
  {
    ConstantIffFlat(data);
    var y := Normalize(data).value;
    forall k | 0 <= k < |data| ensures
      (data[k] == Min(data) ==> y[k] == -1.0) && (data[k] == Max(data) ==> y[k] == 1.0)
    {
      NormalizeAt(data, k);
    }
    var i :| 0 <= i < |data| && data[i] == Min(data);
    var j :| 0 <= j < |data| && data[j] == Max(data);
    ExtremesAre(y, i, j);
  }

  /** Normalize keeps the order of samples; for a non-constant array it also reflects it. */
  lemma NormalizeMonotone(data: seq<real>, i: nat, j: nat)
    requires i < |data| && j < |data|
    ensures data[i] <= data[j] ==> Normalize(data).value[i] <= Normalize(data).value[j]
    ensures !Constant(data) ==>
      (Normalize(data).value[i] <= Normalize(data).value[j] ==> data[i] <= data[j])
  {
    ConstantIffFlat(data);
    if Min(data) != Max(data) {
      RescaleMonotone(data[i], data[j], Min(data), Max(data));
    }
  }

  /** Normalizing an already normalized array changes nothing. */
  lemma NormalizeIdempotent(data: seq<real>)
    requires |data| > 0
    ensures Normalize(Normalize(data).value) == Normalize(data)
  {
    var y := Normalize(data).value;
    NormalizeZerosIffConstant(data);
    if Constant(data) {
      assert Constant(y);
      NormalizeZerosIffConstant(y);
    } else {
      NormalizeSpansRange(data);
      assert Normalize(y).value == y;
    }
  }

  /** A raw array whose minimum is 0 and maximum is 1 normalizes to 2 * x - 1. */
  lemma NormalizeUnitInterval(data: seq<real>)
    requires |data| > 0 && Min(data) == 0.0 && Max(data) == 1.0
    ensures Normalize(data).Ok?
    ensures forall i :: 0 <= i < |data| ==> Normalize(data).value[i] == 2.0 * data[i] - 1.0
  {
    var y := Normalize(data).value;
    forall k | 0 <= k < |data| ensures y[k] == 2.0 * data[k] - 1.0 {
      NormalizeAt(data, k);
      assert Rescale(data[k], 0.0, 1.0) == 2.0 * data[k] - 1.0;
    }
  }

  /** The same fact as a whole-array equation, for a target array ys given pointwise. */
  lemma NormalizeUnitIntervalSeq(data: seq<real>, ys: seq<real>)
    requires |data| > 0 && Min(data) == 0.0 && Max(data) == 1.0
    requires |ys| == |data| && forall i :: 0 <= i < |data| ==> ys[i] == 2.0 * data[i] - 1.0
    ensures Normalize(data) == Ok(ys)
  {
    NormalizeUnitInterval(data);
    NormalizeEquals(data, ys);
  }

  /** An array whose minimum is -1 and maximum is 1 is its own normalization. */
  lemma NormalizeFixesUnitRange(data: seq<real>)
    requires |data| > 0 && Min(data) == -1.0 && Max(data) == 1.0
    ensures Normalize(data) == Ok(data)
  {
    forall k | 0 <= k < |data| ensures Normalize(data).value[k] == data[k] {
      NormalizeAt(data, k);
      assert Rescale(data[k], -1.0, 1.0) == data[k];
    }
    NormalizeEquals(data, data);
  }

  /** A normalized array equals any array that agrees with it sample by sample. */
  lemma NormalizeEquals(data: seq<real>, ys: seq<real>)
    requires |data| > 0 && |ys| == |data|
    requires forall i :: 0 <= i < |data| ==> Normalize(data).value[i] == ys[i]
    ensures Normalize(data) == Ok(ys)
  {
    SameSamples(Normalize(data).value, ys);
  }

  lemma SameSamples(a: seq<real>, b: seq<real>)
    requires |a| == |b| && forall i :: 0 <= i < |a| ==> a[i] == b[i]
    ensures a == b
  {
  }

  /** shapes.py's `Shape`: the point count and the memoised sample array. */
  class Shape {
    var numPoints: int
    var shape: Option<seq<real>>

    constructor (numPoints: int := 100)
      ensures this.numPoints == numPoints && shape == None
    {
      this.numPoints := numPoints;
      shape := None;
    }

    /** The base `generate` returns whatever array is stored. */
    method Generate() returns (r: Option<seq<real>>)
      ensures r == shape
    {
      r := shape;
    }
  }
}
