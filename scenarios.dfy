/** Worked instances: the columns of the profiler's own test inputs, and
    the edge cases of `str_lengths` and of `series_stats`. */
module Scenarios {
  import opened Polars
  import Stats
  import Dispatch
  import StrLengths
  import Profile

  /** The `int32_col` input: 1, 2, 3, 4, 5. */
  function Int32Column(): Series
  {
    Series("int32_col", Int32, [Some(Int(1)), Some(Int(2)), Some(Int(3)), Some(Int(4)), Some(Int(5))])
  }

  /** The `string_col` input: "a", "bb", "ccc", "dddd", "eeeee". */
  function StringColumn(): Series
  {
    Series("string_col", String,
      [Some(Text("a")), Some(Text("bb")), Some(Text("ccc")), Some(Text("dddd")), Some(Text("eeeee"))])
  }

  /** The `float64_col` input: 1.0, 2.0, 3.0, 4.0, 5.0. */
  function Float64Column(): Series
  {
    Series("float64_col", Float64,
      [Some(Float(1.0)), Some(Float(2.0)), Some(Float(3.0)), Some(Float(4.0)), Some(Float(5.0))])
  }

  /** 1.0 to 5.0. */
  const OneToFive: seq<real> := [1.0, 2.0, 3.0, 4.0, 5.0]

  /** The integers 1..5 widen to 1.0..5.0. */
  lemma Int32ColumnNumbers()
    ensures Dispatch.HasNumbers(Int32Column())
    ensures Dispatch.Numbers(Int32, Int32Column().values) == OneToFive
  {
    var vs := Int32Column().values;
    assert Dispatch.Numbers(Int32, vs[4..]) == [5.0];
    assert Dispatch.Numbers(Int32, vs[3..]) == [4.0, 5.0];
    assert Dispatch.Numbers(Int32, vs[2..]) == [3.0, 4.0, 5.0];
    assert Dispatch.Numbers(Int32, vs[1..]) == [2.0, 3.0, 4.0, 5.0];
  }

  /** The extremes of 1..5 are 1 and 5, and the mean is 3. */
  lemma OneToFiveMinMaxMean()
    ensures Stats.MinOf(OneToFive) == 1.0 && Stats.MaxOf(OneToFive) == 5.0
    ensures Stats.Mean(OneToFive) == 3.0
  {
    var xs := OneToFive;
    assert 1.0 in xs && 5.0 in xs;
    assert Stats.Sum([5.0]) == 5.0;
    assert Stats.Sum([4.0, 5.0]) == 9.0;
    assert Stats.Sum([3.0, 4.0, 5.0]) == 12.0;
    assert Stats.Sum([2.0, 3.0, 4.0, 5.0]) == 14.0;
  }

  /** The median of 1..5 is its middle value 3. */
  lemma OneToFiveMedian()
    ensures Stats.Median(OneToFive) == 3.0
  {
    var xs := OneToFive;
    assert Stats.IsSorted(xs);
    Stats.MedianOfSorted(xs);
    assert Stats.Middle(xs) == xs[2];
  }

  /** The squared distances of 1..5 from 3 add up to 10, so the population
      variance is 2. */
  lemma OneToFiveVariance()
    ensures Stats.Variance(OneToFive) == 2.0
  {
    var xs := OneToFive;
    OneToFiveMinMaxMean();
    assert Stats.SquaredDeviations([5.0], 3.0) == 4.0;
    assert Stats.SquaredDeviations([4.0, 5.0], 3.0) == 5.0;
    assert Stats.SquaredDeviations([3.0, 4.0, 5.0], 3.0) == 5.0;
    assert Stats.SquaredDeviations([2.0, 3.0, 4.0, 5.0], 3.0) == 6.0;
    assert Stats.SquaredDeviations(xs, 3.0) == 10.0;
  }

  /** The `int32_col` test input: mean 3, extremes 1 and 5, median 3, and
      standard deviation the square root of 2. */
  lemma Int32ColumnStats()
    ensures Dispatch.MinSeries(Int32Column()) == Some(1.0)
    ensures Dispatch.MaxSeries(Int32Column()) == Some(5.0)
    ensures Dispatch.MeanSeries(Int32Column()) == Some(3.0)
    ensures Dispatch.MedianSeries(Int32Column()) == Some(3.0)
    ensures Dispatch.StdSeries(Int32Column()) == Some(Dispatch.SqrtOf(2.0))
  {
    Int32ColumnNumbers();
    OneToFiveMinMaxMean();
    OneToFiveMedian();
    OneToFiveVariance();
  }

  /** The float cells 1.0..5.0 are taken as they are. */
  lemma Float64ColumnNumbers()
    ensures Dispatch.HasNumbers(Float64Column())
    ensures Dispatch.Numbers(Float64, Float64Column().values) == OneToFive
  {
    var vs := Float64Column().values;
    assert Dispatch.Numbers(Float64, vs[4..]) == [5.0];
    assert Dispatch.Numbers(Float64, vs[3..]) == [4.0, 5.0];
    assert Dispatch.Numbers(Float64, vs[2..]) == [3.0, 4.0, 5.0];
    assert Dispatch.Numbers(Float64, vs[1..]) == [2.0, 3.0, 4.0, 5.0];
  }

  /** The `float64_col` test input gets the same statistics as
      `int32_col`. */
  lemma Float64ColumnStats()
    ensures Dispatch.MinSeries(Float64Column()) == Some(1.0)
    ensures Dispatch.MaxSeries(Float64Column()) == Some(5.0)
    ensures Dispatch.MeanSeries(Float64Column()) == Some(3.0)
    ensures Dispatch.MedianSeries(Float64Column()) == Some(3.0)
    ensures Dispatch.StdSeries(Float64Column()) == Some(Dispatch.SqrtOf(2.0))
  {
    Float64ColumnNumbers();
    OneToFiveMinMaxMean();
    OneToFiveMedian();
    OneToFiveVariance();
  }

  /** Two elements that both map to `Some` keep both results, in order. */
  lemma {:induction false} FilterMapPair<A, B>(xs: seq<A>, f: A --> Option<B>)
    requires |xs| == 2
    requires forall i :: 0 <= i < |xs| ==> f.requires(xs[i]) && f(xs[i]).Some?
    ensures Profile.FilterMap(xs, f) == [f(xs[0]).value, f(xs[1]).value]
  {
    assert xs[..1][..0] == [];
  }

  /** Two supported columns profile to two records named after them. */
  lemma ProfileOfTwo(c: Series, d: Series)
    requires Profile.Profilable(c) && Profile.Supported(c.dtype)
    requires Profile.Profilable(d) && Profile.Supported(d.dtype)
    ensures Profile.AllProfilable([c, d])
    ensures var ps := Profile.Profile([c, d]);
      |ps| == 2 && ps[0].column == c.name && ps[1].column == d.name
  {
    FilterMapPair([c, d], Profile.SeriesStats);
  }

  /** The numeric test profiles `int32_col` and `float64_col`: one record
      each, in that order. */
  lemma NumericTestProfile()
    ensures Profile.AllProfilable([Int32Column(), Float64Column()])
    ensures var ps := Profile.Profile([Int32Column(), Float64Column()]);
      |ps| == 2 && ps[0].column == "int32_col" && ps[1].column == "float64_col"
  {
    ProfileOfTwo(Int32Column(), Float64Column());
  }

  /** The byte lengths 1 to 5, all present. */
  const OneToFiveLengths: seq<Option<u32>> := [Some(1), Some(2), Some(3), Some(4), Some(5)]

  /** The lengths of the string test column are 1 to 5 bytes. */
  lemma StringColumnLengthList()
    ensures StrLengths.Lengths(StringColumn().values) == OneToFiveLengths
  {
    var vs := StringColumn().values;
    forall i | 0 <= i < 5
      ensures StrLengths.ByteLen(vs[i].value.s) == i + 1
    {
      var t := vs[i].value.s;
      assert |t| == i + 1;
      assert forall j :: 0 <= j < |t| ==> (t[j] as int) < 0x80;
    }
  }

  /** Under the derived order the longest of 1..5 is 5 and the shortest 1. */
  lemma OneToFiveLengthExtremes()
    ensures StrLengths.IterMax(OneToFiveLengths) == Some(Some(5))
    ensures StrLengths.IterMin(OneToFiveLengths) == Some(Some(1))
  {
    var ls := OneToFiveLengths;
    assert ls[0] in ls && ls[4] in ls;
    assert StrLengths.OptLe(ls[4], StrLengths.IterMax(ls).value);
    assert StrLengths.OptLe(StrLengths.IterMin(ls).value, ls[0]);
  }

  /** The lengths 1..5 add up to 15. */
  lemma OneToFiveLengthTotal()
    ensures StrLengths.TotalLength(OneToFiveLengths) == 15
  {
    assert StrLengths.TotalLength([Some(5)]) == 5;
    assert StrLengths.TotalLength([Some(4), Some(5)]) == 9;
    assert StrLengths.TotalLength([Some(3), Some(4), Some(5)]) == 12;
    assert StrLengths.TotalLength([Some(2), Some(3), Some(4), Some(5)]) == 14;
  }

  /** The string test column: mean length 3, shortest 1, longest 5. */
  lemma StringColumnLengths()
    ensures StrLengths.StrLengths(StringColumn()) == Some((3, 1, 5))
  {
    StringColumnLengthList();
    OneToFiveLengthExtremes();
    OneToFiveLengthTotal();
  }

  /** "ab", null, "abcd" have lengths 2, none and 4. */
  lemma NullInTextColumnLengths()
    ensures StrLengths.Lengths([Some(Text("ab")), None, Some(Text("abcd"))]) == [Some(2), None, Some(4)]
  {
  }

  /** Under the derived order the null is the least length and 4 the
      greatest; the null counts as 0 in the total of 6. */
  lemma NullInTextColumnStats()
    ensures var ls: seq<Option<u32>> := [Some(2), None, Some(4)];
      && StrLengths.IterMax(ls) == Some(Some(4))
      && StrLengths.IterMin(ls) == Some(None)
      && StrLengths.TotalLength(ls) == 6
  {
    var ls: seq<Option<u32>> := [Some(2), None, Some(4)];
    assert ls[1] in ls && ls[2] in ls;
    assert StrLengths.OptLe(ls[2], StrLengths.IterMax(ls).value);
    assert StrLengths.OptLe(StrLengths.IterMin(ls).value, ls[1]);
    assert StrLengths.TotalLength([Some(4)]) == 4;
    assert StrLengths.TotalLength([None, Some(4)]) == 4;
  }

  /** "ab", null, "abcd": the null makes the shortest length 0 and counts
      in the mean's divisor, so the mean is (2 + 0 + 4) / 3 = 2 although
      the present strings average 3. */
  lemma NullInTextColumn()
    ensures StrLengths.StrLengths(Series("s", String, [Some(Text("ab")), None, Some(Text("abcd"))]))
      == Some((2, 0, 4))
  {
    NullInTextColumnLengths();
    NullInTextColumnStats();
  }

  /** Lengths are UTF-8 bytes: "é" (U+00E9) is one character but two bytes,
      and "€" (U+20AC) three. */
  lemma LengthsAreBytes()
    ensures StrLengths.StrLengths(Series("s", String, [Some(Text("é")), Some(Text("€"))]))
      == Some((2, 2, 3))
  {
    var vs := [Some(Text("é")), Some(Text("€"))];
    assert StrLengths.Lengths(vs) == [Some(2), Some(3)];
  }

  /** A struct column gets no record: profiling one beside a numeric
      column yields the numeric column's record alone. */
  lemma StructColumnSkipped(numeric: Series)
    requires Profile.Profilable(numeric) && IsNumeric(numeric.dtype)
    ensures var inputs := [Series("nested", Struct([Field("a", Int64)]), [Some(Opaque)]), numeric];
      && Profile.AllProfilable(inputs)
      && Profile.Profile(inputs) == [Profile.SeriesStats(numeric).value]
  {
    var nested := Series("nested", Struct([Field("a", Int64)]), [Some(Opaque)]);
    var inputs := [nested, numeric];
    assert Profile.AllProfilable(inputs);
    assert inputs[..1] == [nested] && [nested][..0] == [];
    assert Profile.Profile([nested]) == [];
  }

  /** An all-null integer column still gets a record, with its counts and
      no statistic. */
  lemma AllNullNumericColumn()
    ensures var r := Profile.SeriesStats(Series("n", Int64, [None, None]));
      && r.Some? && !r.value.HasNumericStats() && !r.value.HasLengthStats()
      && r.value.countNull == 2 && r.value.count == 2
  {
  }
}
