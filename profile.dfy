/** The profile of a list of columns: one record of statistics per
    supported column (`series_stats`), gathered into eleven parallel
    vectors and assembled into a data frame whose schema is the one
    `output_fields` announces (`profile_internal`). */
module Profile {
  import opened Polars
  import Dispatch
  import StrLengths

  /** The statistics of one column. The five numeric fields and the three
      length fields are never filled in together. */
  datatype ProfileResult = ProfileResult(
    column: string,
    mean: Option<real>,
    min: Option<real>,
    max: Option<real>,
    median: Option<real>,
    std: Option<Dispatch.StdDev>,
    meanLength: Option<u32>,
    minLength: Option<u32>,
    maxLength: Option<u32>,
    countNull: u32,
    count: u32)
  {
    /** Some numeric statistic is present. */
    predicate HasNumericStats()
    {
      mean.Some? || min.Some? || max.Some? || median.Some? || std.Some?
    }

    /** Some length statistic is present. */
    predicate HasLengthStats()
    {
      meanLength.Some? || minLength.Some? || maxLength.Some?
    }
  }

  /** What `series_stats` needs of a column: its cells belong to its element
      type, and a text column is not one on which the length mean divides
      by zero. */
  predicate Profilable(s: Series)
  {
    WellTyped(s) && (s.dtype == String ==> StrLengths.MeanDefined(s.values))
  }

  /** The element types that get a record: the ten numeric ones and text. */
  predicate Supported(t: DType)
  {
    IsNumeric(t) || t == String
  }

  /** `series_stats`: the record of a numeric or text column, nothing for a
      struct or any other column. A numeric column gets the five
      dispatchers' results and no length statistic; a text column gets
      the three length statistics and no numeric one. Both get the column
      name and the `u32` casts of the null count and of the length. */
  function SeriesStats(s: Series): (r: Option<ProfileResult>)
    requires Profilable(s)
    ensures r.Some? <==> Supported(s.dtype)
    ensures r.Some? ==>
      && r.value.column == s.name
      && r.value.countNull == AsU32(NullCount(s.values))
      && r.value.count == AsU32(|s.values|)
    ensures r.Some? ==> !(r.value.HasNumericStats() && r.value.HasLengthStats())
    ensures r.Some? && |s.values| < U32_LIMIT ==> r.value.countNull <= r.value.count
    ensures r.Some? && IsNumeric(s.dtype) ==>
      !r.value.HasLengthStats() && (r.value.HasNumericStats() <==> Dispatch.HasNumbers(s))
    ensures r.Some? && s.dtype == String ==>
      && !r.value.HasNumericStats()
      && r.value.meanLength.Some? && r.value.minLength.Some? && r.value.maxLength.Some?
  {
    match s.dtype
    case UInt8 | UInt16 | UInt32 | UInt64 | Int8 | Int16 | Int32 | Int64 | Float32 | Float64 =>
      Some(ProfileResult(
        s.name,
        Dispatch.MeanSeries(s),
        Dispatch.MinSeries(s),
        Dispatch.MaxSeries(s),
        Dispatch.MedianSeries(s),
        Dispatch.StdSeries(s),
        None, None, None,
        AsU32(NullCount(s.values)),
        AsU32(|s.values|)))
    case String =>
      var (meanLen, minLen, maxLen) := StrLengths.StrLengths(s).value;
      Some(ProfileResult(
        s.name,
        None, None, None, None, None,
        Some(meanLen), Some(minLen), Some(maxLen),
        AsU32(NullCount(s.values)),
        AsU32(|s.values|)))
    case Struct(_) => None
    case _ => None
  }

  /** The fields of a record are the dispatchers' results for a numeric
      column and the components of `str_lengths` for a text column. */
  lemma SeriesStatsFields(s: Series)
    requires Profilable(s) && Supported(s.dtype)
    ensures var r := SeriesStats(s).value;
      IsNumeric(s.dtype) ==>
        && r.mean == Dispatch.MeanSeries(s)
        && r.min == Dispatch.MinSeries(s)
        && r.max == Dispatch.MaxSeries(s)
        && r.median == Dispatch.MedianSeries(s)
        && r.std == Dispatch.StdSeries(s)
    ensures var r := SeriesStats(s).value;
      s.dtype == String ==>
        && r.meanLength == Some(StrLengths.StrLengths(s).value.0)
        && r.minLength == Some(StrLengths.StrLengths(s).value.1)
        && r.maxLength == Some(StrLengths.StrLengths(s).value.2)
  {
  }

  /** The statistics of a record are ordered: min <= median <= max and
      min <= mean <= max for a numeric column with a present value, and
      min_length <= mean_length <= max_length for a text column whose
      length sum and cell count fit in `u32`. */
  lemma RecordOrdered(s: Series)
    requires Profilable(s) && Supported(s.dtype)
    requires s.dtype == String ==> StrLengths.FitsU32(s)
    ensures var r := SeriesStats(s).value;
      r.HasNumericStats() ==>
        && r.min.value <= r.median.value <= r.max.value
        && r.min.value <= r.mean.value <= r.max.value
    ensures var r := SeriesStats(s).value;
      r.HasLengthStats() ==>
        r.minLength.value <= r.meanLength.value <= r.maxLength.value
  {
    SeriesStatsFields(s);
    if s.dtype == String {
      StrLengths.LengthsOrdered(s);
    } else if Dispatch.HasNumbers(s) {
      Dispatch.NumericOrder(s);
    }
  }

  /** Every column of a list is `Profilable`. */
  predicate AllProfilable(inputs: seq<Series>)
  {
    forall i :: 0 <= i < |inputs| ==> Profilable(inputs[i])
  }

  /** The loop of `profile_internal` as a value: the `Some` results of `f`
      over `xs`, in order, the `None`s being skipped (`filter_map`). */
  function FilterMap<A, B>(xs: seq<A>, f: A --> Option<B>): (ys: seq<B>)
    requires forall i :: 0 <= i < |xs| ==> f.requires(xs[i])
    ensures |ys| <= |xs|
  {
    if xs == [] then []
    else
      var last := xs[|xs| - 1];
      FilterMap(xs[..|xs| - 1], f) + (if f(last).Some? then [f(last).value] else [])
  }

  /** One more element adds its result, if any, at the end. */
  lemma {:induction false} FilterMapStep<A, B>(xs: seq<A>, f: A --> Option<B>, i: nat)
    requires forall k :: 0 <= k < |xs| ==> f.requires(xs[k])
    requires i < |xs|
    ensures FilterMap(xs[..i + 1], f)
      == FilterMap(xs[..i], f) + (if f(xs[i]).Some? then [f(xs[i]).value] else [])
  {
    assert xs[..i + 1][..i] == xs[..i];
  }

  /** `filter_map` over a concatenation works on each part on its own. */
  lemma {:induction false} FilterMapAppend<A, B>(a: seq<A>, b: seq<A>, f: A --> Option<B>)
    requires forall i :: 0 <= i < |a| ==> f.requires(a[i])
    requires forall i :: 0 <= i < |b| ==> f.requires(b[i])
    ensures forall i :: 0 <= i < |a + b| ==> f.requires((a + b)[i])
    ensures FilterMap(a + b, f) == FilterMap(a, f) + FilterMap(b, f)
  {
    var ab := a + b;
    assert forall i :: 0 <= i < |ab| ==> ab[i] == if i < |a| then a[i] else b[i - |a|];
    if b == [] {
      assert ab == a;
    } else {
      var b', last := b[..|b| - 1], b[|b| - 1];
      FilterMapAppend(a, b', f);
      assert ab[..|ab| - 1] == a + b' && ab[|ab| - 1] == last;
    }
  }

  /** Where `f` never gives a result, `filter_map` gives nothing. */
  lemma {:induction false} FilterMapNone<A, B>(xs: seq<A>, f: A --> Option<B>)
    requires forall i :: 0 <= i < |xs| ==> f.requires(xs[i]) && f(xs[i]).None?
    ensures FilterMap(xs, f) == []
  {
    if xs != [] {
      FilterMapNone(xs[..|xs| - 1], f);
    }
  }

  /** The elements of `xs` that satisfy `p`, in order. */
  function Filter<A>(xs: seq<A>, p: A -> bool): (ys: seq<A>)
    ensures |ys| <= |xs|
    ensures forall k :: 0 <= k < |ys| ==> p(ys[k]) && ys[k] in xs
  {
    if xs == [] then []
    else
      var last := xs[|xs| - 1];
      Filter(xs[..|xs| - 1], p) + (if p(last) then [last] else [])
  }

  /** Filtering a concatenation filters each part, in order. */
  lemma {:induction false} FilterAppend<A>(a: seq<A>, b: seq<A>, p: A -> bool)
    ensures Filter(a + b, p) == Filter(a, p) + Filter(b, p)
  {
    var ab := a + b;
    if b == [] {
      assert ab == a;
    } else {
      var b', last := b[..|b| - 1], b[|b| - 1];
      FilterAppend(a, b', p);
      assert ab[..|ab| - 1] == a + b' && ab[|ab| - 1] == last;
    }
  }

  /** Every element that passes is kept: filtering a sequence whose
      elements all pass gives it back whole. */
  lemma {:induction false} FilterAll<A>(xs: seq<A>, p: A -> bool)
    requires forall i :: 0 <= i < |xs| ==> p(xs[i])
    ensures Filter(xs, p) == xs
  {
    if xs != [] {
      FilterAll(xs[..|xs| - 1], p);
    }
  }

  /** An element that fails is dropped: filtering a sequence whose
      elements all fail gives nothing. */
  lemma {:induction false} FilterNone<A>(xs: seq<A>, p: A -> bool)
    requires forall i :: 0 <= i < |xs| ==> !p(xs[i])
    ensures Filter(xs, p) == []
  {
    if xs != [] {
      FilterNone(xs[..|xs| - 1], p);
    }
  }

  /** When `f` gives a result exactly where `p` holds, `filter_map` is `f`
      applied to the elements that satisfy `p`, one result each and in
      order. */
  lemma {:induction false} FilterMapOfFilter<A, B>(xs: seq<A>, f: A --> Option<B>, p: A -> bool)
    requires forall i :: 0 <= i < |xs| ==> f.requires(xs[i]) && (f(xs[i]).Some? <==> p(xs[i]))
    ensures |FilterMap(xs, f)| == |Filter(xs, p)|
    ensures forall k :: 0 <= k < |Filter(xs, p)| ==>
      f.requires(Filter(xs, p)[k]) && f(Filter(xs, p)[k]) == Some(FilterMap(xs, f)[k])
  {
    if xs != [] {
      var init, last := xs[..|xs| - 1], xs[|xs| - 1];
      FilterMapOfFilter(init, f, p);
      var ks, ys := Filter(xs, p), FilterMap(xs, f);
      if p(last) {
        assert ks == Filter(init, p) + [last] && ys == FilterMap(init, f) + [f(last).value];
        forall k | 0 <= k < |ks|
          ensures f.requires(ks[k]) && f(ks[k]) == Some(ys[k])
        {
          if k < |ks| - 1 {
            assert ks[k] == Filter(init, p)[k] && ys[k] == FilterMap(init, f)[k];
          }
        }
      } else {
        assert ks == Filter(init, p) && ys == FilterMap(init, f);
      }
    }
  }

  /** The columns of the profile, in input order: the records of the
      supported columns, the others being skipped. */
  function Profile(inputs: seq<Series>): (rs: seq<ProfileResult>)
    requires AllProfilable(inputs)
    ensures |rs| <= |inputs|
  {
    FilterMap(inputs, SeriesStats)
  }

  /** Two lists of profilable columns concatenate to one. */
  lemma AllProfilableConcat(a: seq<Series>, b: seq<Series>)
    requires AllProfilable(a) && AllProfilable(b)
    ensures AllProfilable(a + b)
  {
    var ab := a + b;
    forall i | 0 <= i < |ab|
      ensures Profilable(ab[i])
    {
      if i < |a| {
        assert ab[i] == a[i];
      } else {
        assert ab[i] == b[i - |a|];
      }
    }
  }

  /** Profiling a concatenation profiles each part on its own: one
      column's record does not depend on the others. */
  lemma ProfileAppend(a: seq<Series>, b: seq<Series>)
    requires AllProfilable(a) && AllProfilable(b)
    ensures AllProfilable(a + b)
    ensures Profile(a + b) == Profile(a) + Profile(b)
  {
    AllProfilableConcat(a, b);
    FilterMapAppend(a, b, SeriesStats);
  }

  /** `Supported` as a test on a whole column, the form `Filter` takes. */
  predicate SupportedColumn(s: Series)
  {
    Supported(s.dtype)
  }

  /** The supported columns of `inputs`, in input order. */
  function Kept(inputs: seq<Series>): (ks: seq<Series>)
    ensures |ks| <= |inputs|
    ensures forall k :: 0 <= k < |ks| ==> Supported(ks[k].dtype)
  {
    Filter(inputs, SupportedColumn)
  }

  /** The profile is exactly the records of the supported columns, one
      each and in input order. */
  lemma ProfileOfKept(inputs: seq<Series>)
    requires AllProfilable(inputs)
    ensures AllProfilable(Kept(inputs))
    ensures |Profile(inputs)| == |Kept(inputs)|
    ensures forall k :: 0 <= k < |Kept(inputs)| ==> Profile(inputs)[k] == SeriesStats(Kept(inputs)[k]).value
  {
    forall i | 0 <= i < |inputs|
      ensures SeriesStats(inputs[i]).Some? <==> SupportedColumn(inputs[i])
    {
    }
    FilterMapOfFilter(inputs, SeriesStats, SupportedColumn);
  }

  /** A list of columns none of which is numeric or text has an empty
      profile. */
  lemma NothingSupported(inputs: seq<Series>)
    requires AllProfilable(inputs)
    requires forall i :: 0 <= i < |inputs| ==> !Supported(inputs[i].dtype)
    ensures Profile(inputs) == []
  {
    FilterMapNone(inputs, SeriesStats);
  }

  /** One cell of the output frame, by the vector it was built from. */
  datatype Cell =
    | TextCell(text: string)
    | FloatCell(x: Option<real>)
    | StdCell(sd: Option<Dispatch.StdDev>)
    | LengthCell(n: Option<u32>)
    | CountCell(c: u32)

  /** A named output column. */
  datatype Column = Column(name: string, dtype: DType, cells: seq<Cell>)

  /** A data frame: columns of one height under distinct names. */
  datatype DataFrame = DataFrame(columns: seq<Column>)

  /** The two ways `DataFrame::new` refuses its columns. */
  datatype PolarsError = ShapeMismatch | DuplicateName

  /** `PolarsResult`. */
  datatype Result<T> = Ok(value: T) | Err(error: PolarsError)

  /** The eleven output names, in schema order. */
  const OutputNames: seq<string> := [
    "column", "mean", "min", "max", "median", "std",
    "mean_length", "min_length", "max_length", "count_null", "count"]

  /** The element type of each output column: text, five floats, five
      unsigned 32-bit integers. */
  function OutputType(j: nat): (t: DType)
  {
    if j == 0 then String else if j <= 5 then Float64 else UInt32
  }

  /** `output_fields`: the announced type of the profile, a struct named
      `profile_result` of eleven fields with distinct names, a text field,
      five float fields and five unsigned 32-bit fields, whatever the input
      fields are. */
  function OutputFields(inputFields: seq<Field>): (r: Result<Field>)
    ensures r.Ok?
    ensures r.value.name == "profile_result" && r.value.dtype.Struct?
    ensures var fs := r.value.dtype.fields;
      && |fs| == 11
      && (forall j :: 0 <= j < 11 ==> fs[j].name == OutputNames[j] && fs[j].dtype == OutputType(j))
      && (forall j, k :: 0 <= j < k < 11 ==> fs[j].name != fs[k].name)
  {
    DistinctOutputNames();
    Ok(Field("profile_result", Struct(seq(11, j requires 0 <= j < 11 => Field(OutputNames[j], OutputType(j))))))
  }

  /** The eleven output names are pairwise distinct. */
  lemma DistinctOutputNames()
    ensures |OutputNames| == 11
    ensures forall j, k :: 0 <= j < k < 11 ==> OutputNames[j] != OutputNames[k]
  {
    var ns := OutputNames;
    forall j, k | 0 <= j < k < 11
      ensures ns[j] != ns[k]
    {
      assert ns[j][..1] != ns[k][..1] || |ns[j]| != |ns[k]| || ns[j][1..] != ns[k][1..];
    }
  }

  /** The name and type of every column of a frame. */
  function Schema(df: DataFrame): (fs: seq<Field>)
    ensures |fs| == |df.columns|
    ensures forall j :: 0 <= j < |fs| ==> fs[j] == Field(df.columns[j].name, df.columns[j].dtype)
  {
    seq(|df.columns|, j requires 0 <= j < |df.columns| => Field(df.columns[j].name, df.columns[j].dtype))
  }

  /** Whether every column has `n` cells. */
  predicate HasHeight(columns: seq<Column>, n: nat)
  {
    forall j :: 0 <= j < |columns| ==> |columns[j].cells| == n
  }

  /** Whether every column has a cell at row `k`. */
  predicate HasHeightAbove(columns: seq<Column>, k: nat)
  {
    forall j :: 0 <= j < |columns| ==> k < |columns[j].cells|
  }

  /** Whether no two columns share a name. */
  predicate DistinctNames(columns: seq<Column>)
  {
    forall j, k :: 0 <= j < k < |columns| ==> columns[j].name != columns[k].name
  }

  /** The number of rows of a frame. */
  function Height(df: DataFrame): nat
  {
    if df.columns == [] then 0 else |df.columns[0].cells|
  }

  /** `DataFrame::new`: the frame of the given columns, refused when their
      heights differ or a name repeats. */
  function DataFrameNew(columns: seq<Column>): (r: Result<DataFrame>)
    ensures r.Ok? <==> (columns == [] || HasHeight(columns, |columns[0].cells|)) && DistinctNames(columns)
    ensures r.Ok? ==> r.value.columns == columns
  {
    if columns != [] && !HasHeight(columns, |columns[0].cells|) then Err(ShapeMismatch)
    else if !DistinctNames(columns) then Err(DuplicateName)
    else Ok(DataFrame(columns))
  }

  /** Row `k` of a profile frame read back as a record, when the frame has
      the eleven profile columns and the row exists. */
  function Row(df: DataFrame, k: nat): Option<ProfileResult>
  {
    if |df.columns| != 11 || !HasHeightAbove(df.columns, k) then None
    else
      var c := seq(11, j requires 0 <= j < 11 => df.columns[j].cells[k]);
      if c[0].TextCell? && c[1].FloatCell? && c[2].FloatCell? && c[3].FloatCell?
        && c[4].FloatCell? && c[5].StdCell? && c[6].LengthCell? && c[7].LengthCell?
        && c[8].LengthCell? && c[9].CountCell? && c[10].CountCell?
      then
        Some(ProfileResult(c[0].text, c[1].x, c[2].x, c[3].x, c[4].x, c[5].sd,
          c[6].n, c[7].n, c[8].n, c[9].c, c[10].c))
      else None
  }

  /** The eleven `Series::new` calls of `profile_internal`: one column per
      vector, under the output names and types. */
  function NewColumns(
    columns: seq<string>, means: seq<Option<real>>, mins: seq<Option<real>>,
    maxs: seq<Option<real>>, medians: seq<Option<real>>, stds: seq<Option<Dispatch.StdDev>>,
    meanLengths: seq<Option<u32>>, minLengths: seq<Option<u32>>, maxLengths: seq<Option<u32>>,
    countNulls: seq<u32>, counts: seq<u32>): (cs: seq<Column>)
    ensures |cs| == 11
    ensures forall j :: 0 <= j < 11 ==> cs[j].name == OutputNames[j]
  {
    [
      Column("column", String, seq(|columns|, k requires 0 <= k < |columns| => TextCell(columns[k]))),
      Column("mean", Float64, seq(|means|, k requires 0 <= k < |means| => FloatCell(means[k]))),
      Column("min", Float64, seq(|mins|, k requires 0 <= k < |mins| => FloatCell(mins[k]))),
      Column("max", Float64, seq(|maxs|, k requires 0 <= k < |maxs| => FloatCell(maxs[k]))),
      Column("median", Float64, seq(|medians|, k requires 0 <= k < |medians| => FloatCell(medians[k]))),
      Column("std", Float64, seq(|stds|, k requires 0 <= k < |stds| => StdCell(stds[k]))),
      Column("mean_length", UInt32, seq(|meanLengths|, k requires 0 <= k < |meanLengths| => LengthCell(meanLengths[k]))),
      Column("min_length", UInt32, seq(|minLengths|, k requires 0 <= k < |minLengths| => LengthCell(minLengths[k]))),
      Column("max_length", UInt32, seq(|maxLengths|, k requires 0 <= k < |maxLengths| => LengthCell(maxLengths[k]))),
      Column("count_null", UInt32, seq(|countNulls|, k requires 0 <= k < |countNulls| => CountCell(countNulls[k]))),
      Column("count", UInt32, seq(|counts|, k requires 0 <= k < |counts| => CountCell(counts[k])))
    ]
  }

  /** The eleven columns carry the names and types `output_fields`
      announces, so their names are distinct. */
  lemma NewColumnsSchema(
    columns: seq<string>, means: seq<Option<real>>, mins: seq<Option<real>>,
    maxs: seq<Option<real>>, medians: seq<Option<real>>, stds: seq<Option<Dispatch.StdDev>>,
    meanLengths: seq<Option<u32>>, minLengths: seq<Option<u32>>, maxLengths: seq<Option<u32>>,
    countNulls: seq<u32>, counts: seq<u32>)
    ensures var frame := NewColumns(columns, means, mins, maxs, medians, stds,
        meanLengths, minLengths, maxLengths, countNulls, counts);
      && Schema(DataFrame(frame)) == OutputFields([]).value.dtype.fields
      && DistinctNames(frame)
  {
    DistinctOutputNames();
  }

  /** The eleven vectors hold the fields of `recs`, element by element. */
  predicate Gathered(
    recs: seq<ProfileResult>,
    columns: seq<string>, means: seq<Option<real>>, mins: seq<Option<real>>,
    maxs: seq<Option<real>>, medians: seq<Option<real>>, stds: seq<Option<Dispatch.StdDev>>,
    meanLengths: seq<Option<u32>>, minLengths: seq<Option<u32>>, maxLengths: seq<Option<u32>>,
    countNulls: seq<u32>, counts: seq<u32>)
  {
    && |columns| == |means| == |mins| == |maxs| == |medians| == |stds| == |recs|
    && |meanLengths| == |minLengths| == |maxLengths| == |countNulls| == |counts| == |recs|
    && (forall k :: 0 <= k < |recs| ==>
      && columns[k] == recs[k].column
      && means[k] == recs[k].mean
      && mins[k] == recs[k].min
      && maxs[k] == recs[k].max
      && medians[k] == recs[k].median
      && stds[k] == recs[k].std)
    && (forall k :: 0 <= k < |recs| ==>
      && meanLengths[k] == recs[k].meanLength
      && minLengths[k] == recs[k].minLength
      && maxLengths[k] == recs[k].maxLength
      && countNulls[k] == recs[k].countNull
      && counts[k] == recs[k].count)
  }

  /** Pushing the fields of one more record onto the eleven vectors keeps
      them in step with the records. */
  lemma {:induction false} GatheredPush(
    recs: seq<ProfileResult>, r: ProfileResult,
    columns: seq<string>, means: seq<Option<real>>, mins: seq<Option<real>>,
    maxs: seq<Option<real>>, medians: seq<Option<real>>, stds: seq<Option<Dispatch.StdDev>>,
    meanLengths: seq<Option<u32>>, minLengths: seq<Option<u32>>, maxLengths: seq<Option<u32>>,
    countNulls: seq<u32>, counts: seq<u32>)
    requires Gathered(recs, columns, means, mins, maxs, medians, stds,
      meanLengths, minLengths, maxLengths, countNulls, counts)
    ensures Gathered(recs + [r],
      columns + [r.column], means + [r.mean], mins + [r.min], maxs + [r.max],
      medians + [r.median], stds + [r.std], meanLengths + [r.meanLength],
      minLengths + [r.minLength], maxLengths + [r.maxLength],
      countNulls + [r.countNull], counts + [r.count])
  {
  }

  /** The eleven columns built from vectors in step with `recs` all have
      one cell per record. */
  lemma NewColumnsHeight(
    recs: seq<ProfileResult>,
    columns: seq<string>, means: seq<Option<real>>, mins: seq<Option<real>>,
    maxs: seq<Option<real>>, medians: seq<Option<real>>, stds: seq<Option<Dispatch.StdDev>>,
    meanLengths: seq<Option<u32>>, minLengths: seq<Option<u32>>, maxLengths: seq<Option<u32>>,
    countNulls: seq<u32>, counts: seq<u32>)
    requires Gathered(recs, columns, means, mins, maxs, medians, stds,
      meanLengths, minLengths, maxLengths, countNulls, counts)
    ensures var frame := NewColumns(columns, means, mins, maxs, medians, stds,
        meanLengths, minLengths, maxLengths, countNulls, counts);
      |frame| == 11 && HasHeight(frame, |recs|)
  {
    var frame := NewColumns(columns, means, mins, maxs, medians, stds,
        meanLengths, minLengths, maxLengths, countNulls, counts);
    assert |frame[0].cells| == |frame[1].cells| == |frame[2].cells| == |frame[3].cells| == |recs|;
    assert |frame[4].cells| == |frame[5].cells| == |frame[6].cells| == |frame[7].cells| == |recs|;
    assert |frame[8].cells| == |frame[9].cells| == |frame[10].cells| == |recs|;
  }

  /** Row `k` of those columns reads back as `recs[k]`. */
  lemma NewColumnsRow(
    recs: seq<ProfileResult>,
    columns: seq<string>, means: seq<Option<real>>, mins: seq<Option<real>>,
    maxs: seq<Option<real>>, medians: seq<Option<real>>, stds: seq<Option<Dispatch.StdDev>>,
    meanLengths: seq<Option<u32>>, minLengths: seq<Option<u32>>, maxLengths: seq<Option<u32>>,
    countNulls: seq<u32>, counts: seq<u32>, k: nat)
    requires Gathered(recs, columns, means, mins, maxs, medians, stds,
      meanLengths, minLengths, maxLengths, countNulls, counts)
    requires k < |recs|
    ensures Row(DataFrame(NewColumns(columns, means, mins, maxs, medians, stds,
        meanLengths, minLengths, maxLengths, countNulls, counts)), k) == Some(recs[k])
  {
    var frame := NewColumns(columns, means, mins, maxs, medians, stds,
        meanLengths, minLengths, maxLengths, countNulls, counts);
    NewColumnsHeight(recs, columns, means, mins, maxs, medians, stds,
      meanLengths, minLengths, maxLengths, countNulls, counts);
    assert HasHeightAbove(frame, k);
    var c := seq(11, j requires 0 <= j < 11 => frame[j].cells[k]);
    assert c[0] == TextCell(recs[k].column);
    assert c[1] == FloatCell(recs[k].mean);
    assert c[2] == FloatCell(recs[k].min);
    assert c[3] == FloatCell(recs[k].max);
    assert c[4] == FloatCell(recs[k].median);
    assert c[5] == StdCell(recs[k].std);
    assert c[6] == LengthCell(recs[k].meanLength);
    assert c[7] == LengthCell(recs[k].minLength);
    assert c[8] == LengthCell(recs[k].maxLength);
    assert c[9] == CountCell(recs[k].countNull);
    assert c[10] == CountCell(recs[k].count);
  }

  /** When the eleven vectors hold the fields of `recs`, element by
      element, `DataFrame::new` accepts their columns and row `k` of the
      frame reads back as `recs[k]`. */
  lemma {:induction false} NewColumnsRows(
    recs: seq<ProfileResult>,
    columns: seq<string>, means: seq<Option<real>>, mins: seq<Option<real>>,
    maxs: seq<Option<real>>, medians: seq<Option<real>>, stds: seq<Option<Dispatch.StdDev>>,
    meanLengths: seq<Option<u32>>, minLengths: seq<Option<u32>>, maxLengths: seq<Option<u32>>,
    countNulls: seq<u32>, counts: seq<u32>)
    requires Gathered(recs, columns, means, mins, maxs, medians, stds,
      meanLengths, minLengths, maxLengths, countNulls, counts)
    ensures var frame := NewColumns(columns, means, mins, maxs, medians, stds,
        meanLengths, minLengths, maxLengths, countNulls, counts);
      && DataFrameNew(frame).Ok?
      && Height(DataFrameNew(frame).value) == |recs|
      && forall k :: 0 <= k < |recs| ==> Row(DataFrameNew(frame).value, k) == Some(recs[k])
  {
    var frame := NewColumns(columns, means, mins, maxs, medians, stds,
        meanLengths, minLengths, maxLengths, countNulls, counts);
    NewColumnsSchema(columns, means, mins, maxs, medians, stds,
      meanLengths, minLengths, maxLengths, countNulls, counts);
    NewColumnsHeight(recs, columns, means, mins, maxs, medians, stds,
      meanLengths, minLengths, maxLengths, countNulls, counts);
    forall k | 0 <= k < |recs|
      ensures Row(DataFrame(frame), k) == Some(recs[k])
    {
      NewColumnsRow(recs, columns, means, mins, maxs, medians, stds,
        meanLengths, minLengths, maxLengths, countNulls, counts, k);
    }
  }

  /** `profile_internal`: the statistics of every supported column, as a
      frame with the schema `output_fields` announces and one row per
      supported column, in input order. The frame is always built: its
      eleven vectors grow together, so `DataFrame::new` never refuses
      them. */
  method ProfileInternal(inputs: seq<Series>) returns (r: Result<DataFrame>)
    requires AllProfilable(inputs)
    ensures r.Ok?
    ensures Schema(r.value) == OutputFields([]).value.dtype.fields
    ensures Height(r.value) == |Profile(inputs)|
    ensures HasHeight(r.value.columns, |Profile(inputs)|)
    ensures forall k :: 0 <= k < |Profile(inputs)| ==> Row(r.value, k) == Some(Profile(inputs)[k])
  {
    var columns: seq<string> := [];
    var means: seq<Option<real>> := [];
    var mins: seq<Option<real>> := [];
    var maxs: seq<Option<real>> := [];
    var medians: seq<Option<real>> := [];
    var stds: seq<Option<Dispatch.StdDev>> := [];
    var meanLengths: seq<Option<u32>> := [];
    var minLengths: seq<Option<u32>> := [];
    var maxLengths: seq<Option<u32>> := [];
    var countNulls: seq<u32> := [];
    var counts: seq<u32> := [];
    ghost var recs: seq<ProfileResult> := [];

    for i := 0 to |inputs|
      invariant AllProfilable(inputs[..i])
      invariant recs == Profile(inputs[..i])
      invariant Gathered(recs, columns, means, mins, maxs, medians, stds,
        meanLengths, minLengths, maxLengths, countNulls, counts)
    {
      FilterMapStep(inputs, SeriesStats, i);
      var stats := SeriesStats(inputs[i]);
      if stats.Some? {
        var result := stats.value;
        GatheredPush(recs, result, columns, means, mins, maxs, medians, stds,
          meanLengths, minLengths, maxLengths, countNulls, counts);
        columns := columns + [result.column];
        means := means + [result.mean];
        mins := mins + [result.min];
        maxs := maxs + [result.max];
        medians := medians + [result.median];
        stds := stds + [result.std];
        meanLengths := meanLengths + [result.meanLength];
        minLengths := minLengths + [result.minLength];
        maxLengths := maxLengths + [result.maxLength];
        countNulls := countNulls + [result.countNull];
        counts := counts + [result.count];
        recs := recs + [result];
      }
    }
    assert inputs[..|inputs|] == inputs;

    NewColumnsSchema(columns, means, mins, maxs, medians, stds,
      meanLengths, minLengths, maxLengths, countNulls, counts);
    NewColumnsRows(recs, columns, means, mins, maxs, medians, stds,
      meanLengths, minLengths, maxLengths, countNulls, counts);
    r := DataFrameNew(NewColumns(columns, means, mins, maxs, medians, stds,
      meanLengths, minLengths, maxLengths, countNulls, counts));
  }
}
