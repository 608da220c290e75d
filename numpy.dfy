/** Models of the numpy and Python operations that the shape generators use:
    array creation, linspace, max/min reductions, Python's slice and index
    rules, and slice and mask assignment into an array. */
module NumPy {

  /** The exceptions numpy and Python raise on the paths the generators can reach. */
  datatype NumpyError =
    | NegativeCount      // numpy.zeros or numpy.linspace with a negative count (ValueError)
    | EmptyReduction     // numpy.max or numpy.min of an empty array (ValueError)
    | IndexOutOfRange    // an integer index outside the array (IndexError)
    | BroadcastMismatch  // a slice assignment whose value does not broadcast (ValueError)

  /** A value, or the exception raised instead of producing it. */
  datatype Result<T> = Ok(value: T) | Err(error: NumpyError) {
    predicate IsFailure() { Err? }
    function PropagateFailure<U>(): Result<U> requires Err? { Err(error) }
    function Extract(): T requires Ok? { value }
  }

  function Abs(x: real): (r: real)
    ensures r >= 0.0 && (r == x || r == -x)
  {
    if x < 0.0 then -x else x
  }

  /** Python's int() on a float: truncation toward zero. */
  function Trunc(x: real): (r: int)
    ensures x >= 0.0 ==> 0 <= r && r as real <= x < r as real + 1.0
    ensures x < 0.0 ==> r <= 0 && r as real - 1.0 < x <= r as real
  {
    if x >= 0.0 then x.Floor else -((-x).Floor)
  }

  /** numpy.zeros(n). */
  function Zeros(n: nat): (z: seq<real>)
    ensures |z| == n
    ensures forall i :: 0 <= i < n ==> z[i] == 0.0
  {
    seq(n, _ => 0.0)
  }

  /** numpy.linspace(start, stop, num): num evenly spaced samples, both ends included. */
  function Linspace(start: real, stop: real, num: nat): (t: seq<real>)
    ensures |t| == num
  {
    if num == 1 then [start]
    else seq(num, i => start + (i as real) * (stop - start) / ((num - 1) as real))
  }

  /** Sample i of an evenly spaced sequence lies between its two ends. */
  lemma LinspaceBetween(start: real, stop: real, num: nat, i: nat)
    requires i < num
    ensures start <= stop ==> start <= Linspace(start, stop, num)[i] <= stop
    ensures stop <= start ==> stop <= Linspace(start, stop, num)[i] <= start
  {
    if num > 1 {
      var m, d := (num - 1) as real, stop - start;
      var q := (i as real) / m;
      var x := Linspace(start, stop, num)[i];
      assert x == start + q * d by {
        LinspaceAt(start, stop, num, i);
        MulDiv(i as real, d, m);
      }
      RatioNonnegative(i as real, m);
      RatioAtMostOne(i as real, m);
      ScaleWithin(q, d);
    }
  }

  /** Sample i of a linspace of two or more samples. */
  lemma LinspaceAt(start: real, stop: real, num: nat, i: nat)
    requires 1 < num && i < num
    ensures Linspace(start, stop, num)[i] == start + (i as real) * (stop - start) / ((num - 1) as real)
  {
  }

  lemma RatioNonnegative(a: real, d: real)
    requires a >= 0.0 && d > 0.0
    ensures a / d >= 0.0
  {
  }

  lemma RatioAtMostOne(a: real, d: real)
    requires a <= d && d > 0.0
    ensures a / d <= 1.0
  {
    assert (a / d) * d == a;
  }

  /** a * d / m == (a / m) * d. */
  lemma MulDiv(a: real, d: real, m: real)
    requires m != 0.0
    ensures a * d / m == (a / m) * d
  {
    assert (a / m) * m == a;
    assert ((a / m) * d) * m == ((a / m) * m) * d;
  }

  /** A fraction q of d lies between 0 and d. */
  lemma ScaleWithin(q: real, d: real)
    requires 0.0 <= q <= 1.0
    ensures d >= 0.0 ==> 0.0 <= q * d <= d
    ensures d <= 0.0 ==> d <= q * d <= 0.0
  {
    assert d - q * d == (1.0 - q) * d;
  }

  /** An affine map a * x + b of an evenly spaced sequence is the evenly spaced
      sequence between the mapped ends. */
  lemma LinspaceAffine(start: real, stop: real, num: nat, i: nat, a: real, b: real, start': real, stop': real)
    requires i < num
    requires start' == a * start + b && stop' == a * stop + b
    ensures a * Linspace(start, stop, num)[i] + b == Linspace(start', stop', num)[i]
  {
    if num > 1 {
      var m := (num - 1) as real;
      var q := (i as real) / m;
      assert Linspace(start, stop, num)[i] == start + q * (stop - start);
      assert Linspace(start', stop', num)[i] == start' + q * (stop' - start');
      assert a * (start + q * (stop - start)) + b == start' + q * (stop' - start');
    }
  }

  /** The first sample is start and the last is stop. */
  lemma LinspaceEnds(start: real, stop: real, num: nat)
    requires num >= 1
    ensures Linspace(start, stop, num)[0] == start
    ensures num >= 2 ==> Linspace(start, stop, num)[num - 1] == stop
  {
    if num >= 2 {
      var m, d := (num - 1) as real, stop - start;
      assert m > 0.0;
      assert (m * d) / m == d by {
        assert ((m * d) / m) * m == m * d;
      }
      assert Linspace(start, stop, num)[num - 1] == start + (m * d) / m;
    }
  }

  /** numpy.max of a non-empty array. */
  function Max(s: seq<real>): (m: real)
    requires |s| > 0
    ensures m in s
    ensures forall i :: 0 <= i < |s| ==> s[i] <= m
  {
    if |s| == 1 then s[0]
    else
      var rest := Max(s[1..]);
      assert forall i :: 1 <= i < |s| ==> s[i] == s[1..][i - 1];
      if s[0] >= rest then s[0] else rest
  }

  /** numpy.min of a non-empty array. */
  function Min(s: seq<real>): (m: real)
    requires |s| > 0
    ensures m in s
    ensures forall i :: 0 <= i < |s| ==> m <= s[i]
  {
    if |s| == 1 then s[0]
    else
      var rest := Min(s[1..]);
      assert forall i :: 1 <= i < |s| ==> s[i] == s[1..][i - 1];
      if s[0] <= rest then s[0] else rest
  }

  /** The smallest and largest samples of an evenly spaced sequence are its ends. */
  lemma LinspaceExtremes(start: real, stop: real, num: nat)
    requires num >= 2
    ensures start <= stop ==> Min(Linspace(start, stop, num)) == start && Max(Linspace(start, stop, num)) == stop
    ensures stop <= start ==> Min(Linspace(start, stop, num)) == stop && Max(Linspace(start, stop, num)) == start
  {
    var t := Linspace(start, stop, num);
    forall k | 0 <= k < num ensures start <= stop ==> start <= t[k] <= stop
      ensures stop <= start ==> stop <= t[k] <= start
    {
      LinspaceBetween(start, stop, num, k);
    }
    LinspaceEnds(start, stop, num);
    if start <= stop {
      ExtremesAre(t, 0, num - 1);
    } else {
      ExtremesAre(t, num - 1, 0);
    }
  }

  /** A sample that bounds every other sample is the maximum, and likewise the minimum. */
  lemma ExtremesAre(s: seq<real>, i: nat, j: nat)
    requires i < |s| && j < |s|
    requires forall k :: 0 <= k < |s| ==> s[i] <= s[k] <= s[j]
    ensures Min(s) == s[i] && Max(s) == s[j]
  {
  }

  /** CPython's adjustment of one bound of a slice a[start:stop] of an array of length n:
      a negative bound counts from the end, and the result is clamped to [0, n]. */
  function SliceIndex(i: int, n: nat): (r: nat)
    ensures r <= n
    ensures 0 <= i <= n ==> r == i
  {
    if i < 0 then (if i + n < 0 then 0 else i + n)
    else if i > n then n
    else i
  }

  /** numpy's `a[start:stop] = x` for a scalar x, as a value. */
  function SliceFilled(s: seq<real>, start: int, stop: int, x: real): (r: seq<real>)
    ensures |r| == |s|
  {
    var lo, hi := SliceIndex(start, |s|), SliceIndex(stop, |s|);
    seq(|s|, k requires 0 <= k < |s| => if lo <= k < hi then x else s[k])
  }

  /** numpy's `a[start:stop] = v` for an array v, as a value: v must have the slice's
      length or length 1 (which broadcasts), else numpy raises before writing. */
  function SliceAssigned(s: seq<real>, start: int, stop: int, v: seq<real>): (r: Result<seq<real>>)
    ensures r.Ok? <==> |v| == 1 || |v| == SliceWidth(start, stop, |s|)
    ensures r.Ok? ==> |r.value| == |s|
  {
    var lo, hi := SliceIndex(start, |s|), SliceIndex(stop, |s|);
    if |v| == SliceWidth(start, stop, |s|) then
      Ok(seq(|s|, k requires 0 <= k < |s| => if lo <= k < hi then v[k - lo] else s[k]))
    else if |v| == 1 then Ok(SliceFilled(s, start, stop, v[0]))
    else Err(BroadcastMismatch)
  }

  /** The number of elements a[start:stop] selects in an array of length n. */
  function SliceWidth(start: int, stop: int, n: nat): (w: nat)
    ensures w <= n
  {
    var lo, hi := SliceIndex(start, n), SliceIndex(stop, n);
    if lo < hi then hi - lo else 0
  }

  /** Assigning v to a slice that starts at a non-negative index and fits in the array
      never raises, and writes v over exactly that window. */
  lemma SliceAssignedWindow(s: seq<real>, start: nat, v: seq<real>)
    requires start + |v| <= |s|
    ensures SliceAssigned(s, start, start + |v|, v).Ok?
    ensures forall i :: 0 <= i < |s| ==>
      SliceAssigned(s, start, start + |v|, v).value[i] == if start <= i < start + |v| then v[i - start] else s[i]
  {
  }

  /** numpy's `a[i] = x` for an integer index i: a negative index counts from the end,
      and one outside the array raises IndexError. */
  function ItemAssigned(s: seq<real>, i: int, x: real): (r: Result<seq<real>>)
    ensures r.Ok? <==> -|s| <= i < |s|
    ensures r.Ok? ==> |r.value| == |s|
  {
    var k := if i < 0 then i + |s| else i;
    if 0 <= k < |s| then Ok(s[k := x]) else Err(IndexOutOfRange)
  }

  /** numpy's `a[numpy.abs(t - center) <= halfWidth] = x`, as a value. */
  function MaskFilled(s: seq<real>, t: seq<real>, center: real, halfWidth: real, x: real): (r: seq<real>)
    requires |t| == |s|
    ensures |r| == |s|
  {
    seq(|s|, k requires 0 <= k < |s| => if Abs(t[k] - center) <= halfWidth then x else s[k])
  }

  /** `a[start:stop] = x` in place. */
  method FillSlice(a: array<real>, start: int, stop: int, x: real)
    modifies a
    ensures a[..] == SliceFilled(old(a[..]), start, stop, x)
  {
    var lo, hi := SliceIndex(start, a.Length), SliceIndex(stop, a.Length);
    forall k | lo <= k < hi {
      a[k] := x;
    }
  }

  /** `a[start:stop] = v` in place; ok is false when numpy would raise, and then
      nothing has been written. */
  method AssignSlice(a: array<real>, start: int, stop: int, v: seq<real>) returns (ok: bool)
    modifies a
    ensures ok == SliceAssigned(old(a[..]), start, stop, v).Ok?
    ensures a[..] == if ok then SliceAssigned(old(a[..]), start, stop, v).value else old(a[..])
  {
    var lo, hi := SliceIndex(start, a.Length), SliceIndex(stop, a.Length);
    if |v| == SliceWidth(start, stop, a.Length) {
      ghost var before := a[..];
      ghost var after := SliceAssigned(before, start, stop, v).value;
      forall k | lo <= k < hi {
        a[k] := v[k - lo];
      }
      forall k | 0 <= k < a.Length ensures a[k] == after[k] {
        assert after[k] == if lo <= k < hi then v[k - lo] else before[k];
      }
      assert a[..] == after;
      ok := true;
    } else if |v| == 1 {
      FillSlice(a, start, stop, v[0]);
      ok := true;
    } else {
      ok := false;
    }
  }

  /** `a[numpy.abs(t - center) <= halfWidth] = x` in place. */
  method FillWhere(a: array<real>, t: seq<real>, center: real, halfWidth: real, x: real)
    requires |t| == a.Length
    modifies a
    ensures a[..] == MaskFilled(old(a[..]), t, center, halfWidth, x)
  {
    forall k | 0 <= k < a.Length && Abs(t[k] - center) <= halfWidth {
      a[k] := x;
    }
  }
}
