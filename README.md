# polars_profile in Dafny

A model of the column profiler of `polars_profile`, a Polars expression
plugin. Given a list of columns, the profiler builds one record per numeric or
text column and packs the records into a frame of eleven columns. A numeric
record holds the mean, min, max, median and population standard deviation. A
text record holds the mean, shortest and longest string length. Every record
also holds the column name, the null count and the length. The frame's schema
is the one `output_fields` announces.

The modules follow `src/expressions.rs`:

- `Polars` (polars.dfy): the host engine as the profiler sees it. It has
  element types, fields, nullable cells, columns, `null_count` and the
  `as u32` cast.
- `Stats` (stats.dfy): min, max, mean, median (by insertion sort) and
  population variance of a sequence of exact numbers.
- `Dispatch` (dispatch.dfy): `min_series`, `max_series`, `mean_series`,
  `median_series` and `std_series`. Each dispatches on the element type and
  widens the eight integer and two float types.
- `StrLengths` (str_lengths.dfy): `str_lengths`, step by step as the
  iterator pipeline computes it.
- `Profile` (profile.dfy): the record, `series_stats`, `output_fields` and
  `profile_internal`. The last is an imperative loop over eleven vectors,
  proved to build the frame `DataFrame::new` accepts.
- `Scenarios` (scenarios.dfy): the three columns of the Rust unit tests
  (`int32_col`, `float64_col` and `string_col`) and the edge cases of
  `str_lengths` and `series_stats`, worked out.

The model follows the code. The points where it may surprise a reader:

- String lengths are UTF-8 byte counts (`str::len`), not character counts.
  `LengthsAreBytes` shows "é" measuring 2 and "€" 3.
- A null counts as length 0 in the mean's sum and as a cell in its divisor.
  It also makes `min_length` 0, because `None` is the least
  `Option<u32>`. `NullInTextColumn` shows `["ab", null, "abcd"]` giving
  mean 2, min 0 and max 4.
- An empty text column divides by zero and panics; it does not report 0.
  `StrLengths.StrLengths` requires a nonzero divisor for that reason.
- An all-null text column does report 0 for all three length statistics
  (`AllNullLengthsZero`).

## Model

| member | source | states |
|---|---|---|
| Polars.AsU32 | src/expressions.rs:143-144 | the `as u32` cast leaves a value below 2^32 unchanged and otherwise differs from it by a multiple of 2^32 (it keeps the low 32 bits) |
| Polars.NullCount | src/expressions.rs:143 | the null count is at most the length |
| Polars.NullCountExtremes | src/expressions.rs:143 | the null count equals the length exactly when every cell is null, and is 0 exactly when every cell is present |
| Stats.MinOf | src/expressions.rs:20-34 | the minimum is one of the values and no value is below it |
| Stats.MaxOf | src/expressions.rs:36-50 | the maximum is one of the values and no value is above it |
| Stats.SumBounds | src/expressions.rs:52-66 | values within [lo, hi] sum to between n·lo and n·hi |
| Stats.Mean | src/expressions.rs:52-66 | n copies of the mean add up to the sum, and the mean lies between the minimum and the maximum |
| Stats.Insert | src/expressions.rs:68-82 | inserting into a sorted sequence keeps it sorted and adds one element |
| Stats.InsertPermutes | src/expressions.rs:68-82 | insertion adds exactly the new value to the multiset of values |
| Stats.Sort | src/expressions.rs:68-82 | the sorted sequence is in ascending order and as long as the input |
| Stats.SortPermutes | src/expressions.rs:68-82 | sorting neither adds nor loses a value (same multiset) |
| Stats.SortOfSorted | src/expressions.rs:68-82 | sorting a sequence already in order leaves it unchanged |
| Stats.MedianOfSorted | src/expressions.rs:68-82 | the median of sorted values is the middle one (odd count) or the mean of the two middle ones (even count) |
| Stats.CountIfPermutation | src/expressions.rs:68-82 | how many values satisfy a test does not depend on their order |
| Stats.MedianSplits | src/expressions.rs:68-82 | at least half of the values are at most the median and at least half are at least the median |
| Stats.MedianBetween | src/expressions.rs:68-82 | the median lies between the minimum and the maximum |
| Stats.SquaredDeviationsNonnegative | src/expressions.rs:84-99 | a sum of squared deviations is never negative |
| Stats.Variance | src/expressions.rs:84-99 | the population variance (divisor n, `std(0)`) is never negative |
| Stats.ConstantVariance | src/expressions.rs:84-99 | when all values are equal, the mean is that value and the variance is 0 |
| Dispatch.Widen | src/expressions.rs:22-30 | `v as f64` is exact in the model: an integer becomes the real of the same value, a float keeps its value |
| Dispatch.Numbers | src/expressions.rs:22-31 | the widened values of a numeric column number exactly its present cells (length minus null count) |
| Dispatch.NumbersCellAt | src/expressions.rs:22-31 | the present cell at position `i` appears, widened, at position `i` minus the nulls before it; with the length clause of `Numbers` this fixes every value and keeps column order |
| Dispatch.MinSeries | src/expressions.rs:20-34 | present exactly for a numeric column with a present value; then it is one of the widened values and at most every one of them |
| Dispatch.MaxSeries | src/expressions.rs:36-50 | present exactly for a numeric column with a present value; then it is one of the widened values and at least every one of them |
| Dispatch.MeanSeries | src/expressions.rs:52-66 | present exactly for a numeric column with a present value; then it is the mean of the widened values |
| Dispatch.MedianSeries | src/expressions.rs:68-82 | present exactly for a numeric column with a present value; then it is the median of the widened present values (middle one for an odd count, mean of the two middle ones for an even count), at least half the values lie on each side of it, and it lies between min and max |
| Dispatch.StdSeries | src/expressions.rs:84-99 | present exactly for a numeric column with a present value; then it is the square root of the non-negative population variance of the widened values |
| Dispatch.NonNumericYieldsNothing | src/expressions.rs:20-99 | every dispatcher gives `None` for an element type other than the ten numeric ones |
| Dispatch.AllNullYieldsNothing | src/expressions.rs:20-99 | an empty or all-null numeric column gets no statistic at all |
| Dispatch.NumericOrder | src/expressions.rs:20-82 | min <= median <= max and min <= mean <= max |
| StrLengths.Utf8Width | src/expressions.rs:107 | a character takes one to four UTF-8 bytes, one exactly when it is ASCII |
| StrLengths.ByteLen | src/expressions.rs:107 | a string's byte length is between its character count and four times that, and equals the character count exactly when all characters are ASCII |
| StrLengths.IterMax | src/expressions.rs:110 | `max` over `Option<u32>` is one of the lengths and no length is above it under the order with `None` lowest; `None` only for no lengths |
| StrLengths.IterMin | src/expressions.rs:111 | `min` over `Option<u32>` is one of the lengths and no length is below it under the order with `None` lowest; `None` only for no lengths |
| StrLengths.DivU32 | src/expressions.rs:113 | `u32` division by a nonzero divisor gives the quotient rounded down, which stays a `u32` |
| StrLengths.StrLengths | src/expressions.rs:101-119 | a result exactly for a text column; the mean length is the floor of the null-as-zero length sum, taken modulo 2^32, divided by the `u32` column length |
| StrLengths.MaxLengthIsLargest | src/expressions.rs:110 | `max_length` is the largest present length, or 0 when no cell is present |
| StrLengths.MinLengthWithNull | src/expressions.rs:111 | one null makes `min_length` 0, whatever the present lengths |
| StrLengths.MinLengthWithoutNull | src/expressions.rs:111 | with no null, `min_length` is the smallest length |
| StrLengths.LengthsCells | src/expressions.rs:105-108 | one length per cell, `None` exactly where the cell is null, and the byte length itself wherever it fits in `u32` |
| StrLengths.TotalLengthZero | src/expressions.rs:113 | the null-as-zero length sum is 0 exactly when every length, a null counting as 0, is 0 |
| StrLengths.TotalLengthAtMost | src/expressions.rs:113 | the length sum is at most n times a bound on every present length |
| StrLengths.TotalLengthAtLeast | src/expressions.rs:113 | with no null, the length sum is at least n times a lower bound on every length |
| StrLengths.MeanAtMost | src/expressions.rs:112-113 | when the cell count fits in `u32`, the mean length is at most any bound on the present lengths, even when the length sum wraps around |
| StrLengths.MeanAtLeast | src/expressions.rs:112-113 | when nothing wraps around and no cell is null, the mean length is at least any lower bound on the lengths |
| StrLengths.MeanAtMostMax | src/expressions.rs:110-113 | `mean_length <= max_length` whenever the cell count fits in `u32`, whether or not the length sum wraps around |
| StrLengths.MinAtMostMeanWithoutNull | src/expressions.rs:111-113 | `min_length <= mean_length` when nothing wraps around and no cell is null |
| StrLengths.LengthsOrdered | src/expressions.rs:110-115 | `min_length <= mean_length <= max_length` for a text column whose length sum and cell count fit in `u32` |
| StrLengths.AllNullLengthsZero | src/expressions.rs:105-115 | an all-null text column has mean, min and max length 0 |
| Profile.SeriesStats | src/expressions.rs:121-167 | a record exactly for a numeric or text column; it carries the name and the `u32` casts of the null count and the length; numeric and length statistics are never both present; a numeric record has a numeric statistic exactly when a value is present; a text record has all three length statistics |
| Profile.SeriesStatsFields | src/expressions.rs:133-162 | a numeric record's fields are the five dispatchers' results; a text record's are the components of `str_lengths` |
| Profile.RecordOrdered | src/expressions.rs:121-167 | in every record min <= median <= max and min <= mean <= max, or min_length <= mean_length <= max_length (no wrap-around) |
| Profile.FilterMap | src/expressions.rs:201-215 | the loop keeps at most one result per input |
| Profile.FilterMapStep | src/expressions.rs:201-215 | one more input adds its result, if any, at the end |
| Profile.FilterMapAppend | src/expressions.rs:201-215 | the loop over a concatenation is the loops over the parts, one after the other |
| Profile.FilterMapNone | src/expressions.rs:201-215 | inputs that all give `None` leave the vectors empty |
| Profile.Filter | src/expressions.rs:202 | the kept inputs all pass the test and all come from the input |
| Profile.FilterAppend | src/expressions.rs:202 | filtering a concatenation filters each part, in order |
| Profile.FilterAll | src/expressions.rs:202 | when every input passes, every input is kept, in order |
| Profile.FilterNone | src/expressions.rs:202 | when no input passes, nothing is kept |
| Profile.FilterMapOfFilter | src/expressions.rs:201-215 | when results exist exactly where a test holds, the results are those of the inputs that pass it, one each and in order |
| Profile.Profile | src/expressions.rs:201-215 | the profile has at most one record per column |
| Profile.ProfileAppend | src/expressions.rs:201-215 | profiling a concatenation is profiling each part: a column's record does not depend on the other columns |
| Profile.Kept | src/expressions.rs:122-165 | the kept columns are all numeric or text |
| Profile.ProfileOfKept | src/expressions.rs:201-215 | the profile is `series_stats` of the numeric and text columns, one record each and in input order |
| Profile.NothingSupported | src/expressions.rs:164-165 | columns none of which is numeric or text give an empty profile |
| Profile.OutputFields | src/expressions.rs:169-186 | whatever the input fields, a struct field `profile_result` with eleven distinct fields: the names in order, a text field, five float fields and five `u32` fields |
| Profile.DistinctOutputNames | src/expressions.rs:173-183 | the eleven output names are pairwise distinct |
| Profile.DataFrameNew | src/expressions.rs:217-229 | `DataFrame::new` accepts its columns exactly when their heights agree and their names are distinct, and then holds them unchanged |
| Profile.NewColumns | src/expressions.rs:217-229 | the eleven `Series::new` calls give eleven columns, named as `output_fields` names them, in order |
| Profile.NewColumnsSchema | src/expressions.rs:217-229 | the eleven `Series::new` columns carry the names and types `output_fields` announces, so their names are distinct |
| Profile.GatheredPush | src/expressions.rs:203-213 | pushing a record's eleven fields keeps the vectors in step with the records |
| Profile.NewColumnsHeight | src/expressions.rs:217-229 | vectors in step with the records build eleven columns of one cell per record |
| Profile.NewColumnsRow | src/expressions.rs:217-229 | row k of those columns reads back as record k |
| Profile.NewColumnsRows | src/expressions.rs:217-229 | `DataFrame::new` accepts vectors in step with the records, and the frame's height and rows are the records |
| Profile.ProfileInternal | src/expressions.rs:188-232 | on columns that pass `Profilable` (no text column on which the length mean divides by zero; the source panics there, src/expressions.rs:113) always succeeds, with the schema of `output_fields` and all eleven columns of one height: one row per numeric or text column, and row k the k-th record of the profile |
| Scenarios.Int32ColumnNumbers | src/expressions.rs:245 | the `int32_col` cells 1..5 widen to 1.0..5.0 |
| Scenarios.OneToFiveMinMaxMean | src/expressions.rs:245 | 1..5 has minimum 1, maximum 5 and mean 3 |
| Scenarios.OneToFiveMedian | src/expressions.rs:245 | 1..5 has median 3 |
| Scenarios.OneToFiveVariance | src/expressions.rs:245 | 1..5 has population variance 2 |
| Scenarios.Int32ColumnStats | src/expressions.rs:245 | `int32_col` gets min 1, max 5, mean 3, median 3 and standard deviation the square root of 2 |
| Scenarios.Float64ColumnNumbers | src/expressions.rs:246 | the `float64_col` cells 1.0..5.0 are taken as they are |
| Scenarios.Float64ColumnStats | src/expressions.rs:246 | `float64_col` gets min 1, max 5, mean 3, median 3 and standard deviation the square root of 2 |
| Scenarios.ProfileOfTwo | src/expressions.rs:201-215 | two supported columns profile to two records named after them, in order |
| Scenarios.NumericTestProfile | src/expressions.rs:244-248 | the numeric test's input `int32_col`, `float64_col` profiles to two records, named `int32_col` then `float64_col` |
| Scenarios.StringColumnLengthList | src/expressions.rs:274 | the `string_col` strings measure 1 to 5 bytes |
| Scenarios.OneToFiveLengthExtremes | src/expressions.rs:110-111 | the longest of the lengths 1..5 is 5 and the shortest is 1 |
| Scenarios.OneToFiveLengthTotal | src/expressions.rs:113 | the lengths 1..5 add up to 15 |
| Scenarios.StringColumnLengths | src/expressions.rs:274 | `string_col` gets mean length 3, shortest 1 and longest 5 |
| Scenarios.NullInTextColumnLengths | src/expressions.rs:105-108 | "ab", null, "abcd" measure 2, none and 4 |
| Scenarios.NullInTextColumnStats | src/expressions.rs:110-113 | for lengths 2, none and 4: the longest is 4, the shortest is the null, and the null-as-zero total is 6 |
| Scenarios.NullInTextColumn | src/expressions.rs:101-119 | "ab", null, "abcd" give mean length 2, shortest 0 and longest 4 |
| Scenarios.LengthsAreBytes | src/expressions.rs:107 | "é" and "€" give mean length 2, shortest 2 and longest 3: lengths are bytes |
| Scenarios.StructColumnSkipped | src/expressions.rs:164 | a struct column beside a numeric one gets no record; the numeric column's record is the whole profile |
| Scenarios.AllNullNumericColumn | src/expressions.rs:133-145 | an all-null integer column gets a record with its counts and no statistic |

## Left out

- The `profile` entry point and its `#[polars_expr]` registration (src/expressions.rs:234-237) are plugin glue. The model stops at the frame.
- The `into_struct("profile_result")` / `into_series()` packaging of the frame (src/expressions.rs:231) is not modelled. `Profile.ProfileInternal` returns the frame.
- The Python package and its tests are not part of this model, so the Python test columns are not worked out.
- The Rust unit tests (src/expressions.rs:239-298) check only the result's name and schema. `Profile.OutputFields` and `Profile.ProfileInternal` state that schema. The scenario lemmas work out the statistics of the tests' columns.
- Floating point: cells and statistics are exact reals. IEEE rounding, NaN and infinity are not modelled, and the float-to-`f64` widening is exact.
- How Polars computes its aggregations (kernels, chunking, integer accumulators) is not modelled. Each statistic is its mathematical definition over the present values.
- Dispatch.Widen: `v as f64` rounds integers beyond 2^53 to the nearest `f64`; the model widens every integer exactly.
- Dispatch.StdSeries: the square root is kept symbolic as `SqrtOf(variance)`, because Dafny's reals have no square root. The model states the variance and its sign, not a rounded `f64`.
- Dispatch.MedianSeries: the median is the mathematical median (`Stats.Median`, by the odd/even middle rule), not the engine's own selection algorithm.
- StrLengths.StrLengths: requires a nonzero `u32` divisor. Where the code divides by zero (an empty column, or a length that is a multiple of 2^32), it panics; the model does not give that panic an error value.
- StrLengths.StrLengths: the `u32` length sum wraps around as in a release build. The debug-build overflow panic is not modelled.
- StrLengths.LengthsOrdered: the full ordering is proved only when the length sum and the cell count fit in `u32`. A wrapped sum can break only `min_length <= mean_length`; `mean_length <= max_length` holds whenever the cell count fits (`StrLengths.MeanAtMostMax`).
- Profile.SeriesStats: `count_null <= count` is stated only for columns shorter than 2^32 cells, where neither `as u32` cast wraps.
- Profile.SeriesStats: the failing `series.str().ok()?` (src/expressions.rs:104) is not modelled. It cannot fail on a text column.
- Profile.Profilable: the model assumes every present cell fits its column's element type (`WellTyped`), as the engine's typed arrays guarantee. The unreachable `unwrap()` failures of the dispatchers are not modelled.
- Profile.DataFrameNew: only the two refusals the profiler could meet are modelled, unequal heights and a repeated name. The error carries no message.
- Profile.ProfileInternal: the eleven `Vec`s are `seq` locals that each push reassigns. Buffer growth and aliasing are not modelled.
- Stats.ConstantVariance: only one direction is proved. A constant column has variance 0; the converse is not proved.
