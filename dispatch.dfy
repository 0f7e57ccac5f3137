/** The five numeric dispatchers: each looks at a column's element type,
    widens the present values of the eight integer and two float types to
    a common number type and aggregates them; every other element type
    yields no statistic. */
module Dispatch {
  import opened Polars
  import Stats

  /** A standard deviation, kept symbolic as the square root of the
      population variance (`std(0)`). */
  datatype StdDev = SqrtOf(variance: real)

  /** The widening `v as f64` of an integer or float cell. */
  function Widen(v: Value): (r: real)
    requires v.Int? || v.Float?
    ensures v.Int? ==> r == v.i as real && r.Floor == v.i
    ensures v.Float? ==> r == v.x
  {
    match v
    case Int(i) => i as real
    case Float(x) => x
  }

  /** The present values of a numeric column, widened, in column order. */
  function Numbers(t: DType, vs: seq<Option<Value>>): (xs: seq<real>)
    requires IsNumeric(t)
    requires forall i :: 0 <= i < |vs| ==> vs[i].Some? ==> Fits(t, vs[i].value)
    ensures |xs| + NullCount(vs) == |vs|
  {
    if vs == [] then []
    else
      var rest := Numbers(t, vs[1..]);
      match vs[0]
      case None => rest
      case Some(v) =>
        assert Fits(t, v);
        [Widen(v)] + rest
  }

  /** The nulls among the first `i` cells: the first cell's, then those
      among the next `i - 1`. */
  lemma NullCountPrefix(vs: seq<Option<Value>>, i: nat)
    requires 0 < i <= |vs|
    ensures NullCount(vs[..i]) == (if vs[0].None? then 1 else 0) + NullCount(vs[1..][..i - 1])
  {
    assert vs[..i][1..] == vs[1..][..i - 1];
  }

  /** `Numbers` of a non-empty column: the first cell's widened value, if
      present, then `Numbers` of the rest. */
  lemma NumbersCons(t: DType, vs: seq<Option<Value>>)
    requires IsNumeric(t)
    requires forall i :: 0 <= i < |vs| ==> vs[i].Some? ==> Fits(t, vs[i].value)
    requires vs != []
    ensures vs[0].Some? ==> Fits(t, vs[0].value)
    ensures Numbers(t, vs) == (if vs[0].Some? then [Widen(vs[0].value)] else []) + Numbers(t, vs[1..])
  {
  }

  /** A present first cell is the first value of `Numbers`. */
  lemma NumbersHead(t: DType, vs: seq<Option<Value>>)
    requires IsNumeric(t)
    requires forall k :: 0 <= k < |vs| ==> vs[k].Some? ==> Fits(t, vs[k].value)
    requires vs != [] && vs[0].Some?
    ensures Fits(t, vs[0].value)
    ensures 0 - NullCount(vs[..0]) == 0 < |Numbers(t, vs)|
    ensures Numbers(t, vs)[0] == Widen(vs[0].value)
  {
    assert vs[..0] == [];
    NumbersCons(t, vs);
  }

  /** A value at position `p` of `Numbers` of the tail moves to `p + 1`
      when the first cell is present, and stays at `p` when it is null;
      so does the count of nulls before it. */
  lemma NumbersShift(t: DType, vs: seq<Option<Value>>, i: nat)
    requires IsNumeric(t)
    requires forall k :: 0 <= k < |vs| ==> vs[k].Some? ==> Fits(t, vs[k].value)
    requires 0 < i < |vs|
    requires (i - 1) - NullCount(vs[1..][..i - 1]) < |Numbers(t, vs[1..])|
    ensures i - NullCount(vs[..i]) < |Numbers(t, vs)|
    ensures Numbers(t, vs)[i - NullCount(vs[..i])] == Numbers(t, vs[1..])[(i - 1) - NullCount(vs[1..][..i - 1])]
  {
    var rest, j := vs[1..], i - 1;
    var xs, ys := Numbers(t, vs), Numbers(t, rest);
    var p, k := i - NullCount(vs[..i]), j - NullCount(rest[..j]);
    NullCountPrefix(vs, i);
    NumbersCons(t, vs);
    assert 0 <= k < |ys|;
    if vs[0].None? {
      assert p == k && xs == ys;
    } else {
      var head := [Widen(vs[0].value)];
      assert p == k + 1 && xs == head + ys;
      assert (head + ys)[k + 1] == ys[k];
    }
  }

  /** Which values `Numbers` holds: the present cell at `i` lands, widened,
      at position `i` minus the nulls before it. With the length clause of
      `Numbers` this pins every element, in column order. */
  lemma {:induction false} NumbersCellAt(t: DType, vs: seq<Option<Value>>, i: nat)
    requires IsNumeric(t)
    requires forall k :: 0 <= k < |vs| ==> vs[k].Some? ==> Fits(t, vs[k].value)
    requires i < |vs| && vs[i].Some?
    ensures Fits(t, vs[i].value)
    ensures i - NullCount(vs[..i]) < |Numbers(t, vs)|
    ensures Numbers(t, vs)[i - NullCount(vs[..i])] == Widen(vs[i].value)
  {
    if i == 0 {
      NumbersHead(t, vs);
    } else {
      NumbersCellAt(t, vs[1..], i - 1);
      assert vs[1..][i - 1] == vs[i];
      NumbersShift(t, vs, i);
    }
  }

  /** A column is numeric, and its widened present values are `Numbers`. */
  predicate HasNumbers(s: Series)
  {
    IsNumeric(s.dtype) && WellTyped(s) && NullCount(s.values) < |s.values|
  }

  /** `min_series`: the smallest present value of a numeric column. */
  function MinSeries(s: Series): (r: Option<real>)
    requires WellTyped(s)
    ensures r.Some? <==> HasNumbers(s)
    ensures r.Some? ==> r.value in Numbers(s.dtype, s.values)
    ensures r.Some? ==> forall x <- Numbers(s.dtype, s.values) :: r.value <= x
  {
    match s.dtype
    case UInt8 | UInt16 | UInt32 | UInt64 | Int8 | Int16 | Int32 | Int64 | Float32 | Float64 =>
      var xs := Numbers(s.dtype, s.values);
      if xs == [] then None else Some(Stats.MinOf(xs))
    case _ => None
  }

  /** `max_series`: the largest present value of a numeric column. */
  function MaxSeries(s: Series): (r: Option<real>)
    requires WellTyped(s)
    ensures r.Some? <==> HasNumbers(s)
    ensures r.Some? ==> r.value in Numbers(s.dtype, s.values)
    ensures r.Some? ==> forall x <- Numbers(s.dtype, s.values) :: x <= r.value
  {
    match s.dtype
    case UInt8 | UInt16 | UInt32 | UInt64 | Int8 | Int16 | Int32 | Int64 | Float32 | Float64 =>
      var xs := Numbers(s.dtype, s.values);
      if xs == [] then None else Some(Stats.MaxOf(xs))
    case _ => None
  }

  /** `mean_series`: the arithmetic mean of the present values (whose
      count times it is their sum). */
  function MeanSeries(s: Series): (r: Option<real>)
    requires WellTyped(s)
    ensures r.Some? <==> HasNumbers(s)
    ensures r.Some? ==> r.value == Stats.Mean(Numbers(s.dtype, s.values))
  {
    match s.dtype
    case UInt8 | UInt16 | UInt32 | UInt64 | Int8 | Int16 | Int32 | Int64 | Float32 | Float64 =>
      var xs := Numbers(s.dtype, s.values);
      if xs == [] then None else Some(Stats.Mean(xs))
    case _ => None
  }

  /** `median_series`: the median of the present values by the odd/even
      middle rule. At least half of them lie at or below it and at least
      half at or above it. */
  function MedianSeries(s: Series): (r: Option<real>)
    requires WellTyped(s)
    ensures r.Some? <==> HasNumbers(s)
    ensures r.Some? ==> var xs := Numbers(s.dtype, s.values);
      2 * Stats.CountAtMost(xs, r.value) >= |xs| && 2 * Stats.CountAtLeast(xs, r.value) >= |xs|
    ensures r.Some? ==> var xs := Numbers(s.dtype, s.values);
      Stats.MinOf(xs) <= r.value <= Stats.MaxOf(xs)
    ensures r.Some? ==> r.value == Stats.Median(Numbers(s.dtype, s.values))
  {
    match s.dtype
    case UInt8 | UInt16 | UInt32 | UInt64 | Int8 | Int16 | Int32 | Int64 | Float32 | Float64 =>
      var xs := Numbers(s.dtype, s.values);
      if xs == [] then None
      else
        Stats.MedianSplits(xs);
        Stats.MedianBetween(xs);
        Some(Stats.Median(xs))
    case _ => None
  }

  /** `std_series`: the population standard deviation of the present
      values, as the square root of a variance that is never negative. */
  function StdSeries(s: Series): (r: Option<StdDev>)
    requires WellTyped(s)
    ensures r.Some? <==> HasNumbers(s)
    ensures r.Some? ==> r.value.variance >= 0.0
    ensures r.Some? ==> r.value.variance == Stats.Variance(Numbers(s.dtype, s.values))
  {
    match s.dtype
    case UInt8 | UInt16 | UInt32 | UInt64 | Int8 | Int16 | Int32 | Int64 | Float32 | Float64 =>
      var xs := Numbers(s.dtype, s.values);
      if xs == [] then None else Some(SqrtOf(Stats.Variance(xs)))
    case _ => None
  }

  /** Every numeric dispatcher yields nothing for an element type other
      than the eight integer and two float types. */
  lemma NonNumericYieldsNothing(s: Series)
    requires WellTyped(s) && !IsNumeric(s.dtype)
    ensures MinSeries(s) == None && MaxSeries(s) == None && MeanSeries(s) == None
    ensures MedianSeries(s) == None && StdSeries(s) == None
  {
  }

  /** A numeric column with no present value (empty or all null) gets no
      statistic at all, not a zero. */
  lemma AllNullYieldsNothing(s: Series)
    requires WellTyped(s) && NullCount(s.values) == |s.values|
    ensures MinSeries(s) == None && MaxSeries(s) == None && MeanSeries(s) == None
    ensures MedianSeries(s) == None && StdSeries(s) == None
  {
  }

  /** For a numeric column with a present value, min <= median <= max and
      min <= mean <= max. */
  lemma NumericOrder(s: Series)
    requires HasNumbers(s)
    ensures MinSeries(s).value <= MedianSeries(s).value <= MaxSeries(s).value
    ensures MinSeries(s).value <= MeanSeries(s).value <= MaxSeries(s).value
  {
    var xs := Numbers(s.dtype, s.values);
    var lo, hi := MinSeries(s).value, MaxSeries(s).value;
    assert lo == Stats.MinOf(xs) by {
      assert Stats.MinOf(xs) in xs;
    }
    assert hi == Stats.MaxOf(xs) by {
      assert Stats.MaxOf(xs) in xs;
    }
  }
}
