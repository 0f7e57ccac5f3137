/** Exact statistics over the present values of a numeric column, once they
    have been widened to a common number type. These say what the engine's
    `min`, `max`, `mean`, `median` and `std(0)` aggregations return; they do
    not retrace how the engine computes them. */
module Stats {

  function Sum(xs: seq<real>): real
  {
    if xs == [] then 0.0 else xs[0] + Sum(xs[1..])
  }

  /** The smallest value: one of the values, and no value is below it. */
  function MinOf(xs: seq<real>): (m: real)
    requires xs != []
    ensures m in xs
    ensures forall x <- xs :: m <= x
  {
    if |xs| == 1 then xs[0]
    else
      var rest := MinOf(xs[1..]);
      assert forall x <- xs :: x == xs[0] || x in xs[1..];
      if xs[0] <= rest then xs[0] else rest
  }

  /** The largest value: one of the values, and no value is above it. */
  function MaxOf(xs: seq<real>): (m: real)
    requires xs != []
    ensures m in xs
    ensures forall x <- xs :: x <= m
  {
    if |xs| == 1 then xs[0]
    else
      var rest := MaxOf(xs[1..]);
      assert forall x <- xs :: x == xs[0] || x in xs[1..];
      if rest <= xs[0] then xs[0] else rest
  }

  /** A sum of values that all lie in [lo, hi] lies in [n * lo, n * hi]. */
  lemma {:induction false} SumBounds(xs: seq<real>, lo: real, hi: real)
    requires forall x <- xs :: lo <= x <= hi
    ensures (|xs| as real) * lo <= Sum(xs) <= (|xs| as real) * hi
  {
    if xs != [] {
      var rest := xs[1..];
      assert xs[0] in xs;
      assert forall x <- rest :: x in xs;
      SumBounds(rest, lo, hi);
      var n := |rest| as real;
      assert |xs| as real == n + 1.0;
      assert (n + 1.0) * lo == n * lo + lo && (n + 1.0) * hi == n * hi + hi;
    }
  }

  /** The arithmetic mean: n copies of it add up to the sum, and it lies
      between the smallest and the largest value. */
  function Mean(xs: seq<real>): (m: real)
    requires xs != []
    ensures m * (|xs| as real) == Sum(xs)
    ensures MinOf(xs) <= m <= MaxOf(xs)
  {
    var n := |xs| as real;
    SumBounds(xs, MinOf(xs), MaxOf(xs));
    QuotientBounds(Sum(xs), n, MinOf(xs), MaxOf(xs));
    Sum(xs) / n
  }

  /** Dividing by a positive count keeps a scaled bound. */
  lemma QuotientBounds(total: real, n: real, lo: real, hi: real)
    requires n > 0.0 && n * lo <= total <= n * hi
    ensures (total / n) * n == total
    ensures lo <= total / n <= hi
  {
    var m := total / n;
    assert m * n == total;
  }

  predicate IsSorted(s: seq<real>)
  {
    forall i, j :: 0 <= i < j < |s| ==> s[i] <= s[j]
  }

  /** Inserts `x` into a sorted sequence, keeping it sorted. */
  function Insert(x: real, s: seq<real>): (r: seq<real>)
    requires IsSorted(s)
    ensures IsSorted(r) && |r| == |s| + 1
    ensures r[0] == x || (s != [] && r[0] == s[0])
  {
    if s == [] || x <= s[0] then [x] + s
    else [s[0]] + Insert(x, s[1..])
  }

  /** Insertion adds exactly `x` to the values. */
  lemma {:induction false} InsertPermutes(x: real, s: seq<real>)
    requires IsSorted(s)
    ensures multiset(Insert(x, s)) == multiset(s) + multiset{x}
  {
    if s != [] && s[0] < x {
      InsertPermutes(x, s[1..]);
      assert s == [s[0]] + s[1..];
    }
  }

  /** The values in ascending order (insertion sort). */
  function Sort(xs: seq<real>): (s: seq<real>)
    ensures IsSorted(s) && |s| == |xs|
  {
    if xs == [] then [] else Insert(xs[0], Sort(xs[1..]))
  }

  /** Sorting rearranges the values without adding or losing any. */
  lemma {:induction false} SortPermutes(xs: seq<real>)
    ensures multiset(Sort(xs)) == multiset(xs)
  {
    if xs != [] {
      SortPermutes(xs[1..]);
      InsertPermutes(xs[0], Sort(xs[1..]));
      assert xs == [xs[0]] + xs[1..];
    }
  }

  /** Sorting a sequence that is already in order leaves it as it is. */
  lemma {:induction false} SortOfSorted(xs: seq<real>)
    requires IsSorted(xs)
    ensures Sort(xs) == xs
  {
    if xs != [] {
      var tail := xs[1..];
      assert IsSorted(tail);
      SortOfSorted(tail);
      assert xs == [xs[0]] + tail;
    }
  }

  /** The median of values already in order is their middle. */
  lemma {:induction false} MedianOfSorted(xs: seq<real>)
    requires xs != [] && IsSorted(xs)
    ensures Median(xs) == Middle(xs)
  {
    SortOfSorted(xs);
  }

  /** The median by the usual rule: the middle value of the sorted values
      for an odd count, the mean of the two middle values for an even one. */
  function Median(xs: seq<real>): real
    requires xs != []
  {
    Middle(Sort(xs))
  }

  /** The middle of a sorted sequence, by the odd/even rule. */
  function Middle(s: seq<real>): real
    requires s != []
  {
    var k := |s| / 2;
    if |s| % 2 == 1 then s[k] else (s[k - 1] + s[k]) / 2.0
  }

  /** Every value of the sorted sequence is one of the input values. */
  lemma {:induction false} SortedFrom(xs: seq<real>, i: nat)
    requires i < |Sort(xs)|
    ensures Sort(xs)[i] in xs
  {
    var s := Sort(xs);
    SortPermutes(xs);
    assert s[i] in multiset(s);
  }

  /** The number of values satisfying `p`. */
  function CountIf(xs: seq<real>, p: real -> bool): (n: nat)
    ensures n <= |xs|
  {
    if xs == [] then 0 else (if p(xs[0]) then 1 else 0) + CountIf(xs[1..], p)
  }

  /** The number of values at most `m`. */
  function CountAtMost(xs: seq<real>, m: real): nat
  {
    CountIf(xs, x => x <= m)
  }

  /** The number of values at least `m`. */
  function CountAtLeast(xs: seq<real>, m: real): nat
  {
    CountIf(xs, x => m <= x)
  }

  lemma {:induction false} CountIfAppend(a: seq<real>, b: seq<real>, p: real -> bool)
    ensures CountIf(a + b, p) == CountIf(a, p) + CountIf(b, p)
  {
    if a != [] {
      assert (a + b)[1..] == a[1..] + b;
      CountIfAppend(a[1..], b, p);
    } else {
      assert a + b == b;
    }
  }

  /** Taking the value at position `j` out of `b` lowers the count by
      that value's share. */
  lemma {:induction false} CountIfRemove(b: seq<real>, j: nat, p: real -> bool)
    requires j < |b|
    ensures CountIf(b, p) == CountIf(b[..j] + b[j + 1..], p) + (if p(b[j]) then 1 else 0)
  {
    assert b == b[..j] + ([b[j]] + b[j + 1..]);
    CountIfAppend(b[..j], [b[j]] + b[j + 1..], p);
    CountIfAppend([b[j]], b[j + 1..], p);
    assert [b[j]][1..] == [];
    CountIfAppend(b[..j], b[j + 1..], p);
  }

  lemma {:induction false} MultisetRemove(b: seq<real>, j: nat)
    requires j < |b|
    ensures multiset(b[..j] + b[j + 1..]) == multiset(b) - multiset{b[j]}
  {
    assert b == b[..j] + [b[j]] + b[j + 1..];
  }

  /** Counting depends only on which values there are, not on their order. */
  lemma {:induction false} CountIfPermutation(a: seq<real>, b: seq<real>, p: real -> bool)
    requires multiset(a) == multiset(b)
    ensures CountIf(a, p) == CountIf(b, p)
  {
    if a != [] {
      assert a == [a[0]] + a[1..];
      assert a[0] in multiset(b);
      var j :| 0 <= j < |b| && b[j] == a[0];
      var rest := b[..j] + b[j + 1..];
      MultisetRemove(b, j);
      assert multiset(a[1..]) == multiset(a) - multiset{a[0]};
      CountIfPermutation(a[1..], rest, p);
      CountIfRemove(b, j, p);
    }
  }

  /** When every value of `xs` satisfies `p`, all of them are counted. */
  lemma {:induction false} CountIfAll(xs: seq<real>, p: real -> bool)
    requires forall k :: 0 <= k < |xs| ==> p(xs[k])
    ensures CountIf(xs, p) == |xs|
  {
    if xs != [] {
      CountIfAll(xs[1..], p);
    }
  }

  /** In a sorted sequence, when `s[i] <= m` the values up to position `i`
      are all at most `m`. */
  lemma {:induction false} SortedPrefixAtMost(s: seq<real>, i: nat, m: real)
    requires IsSorted(s) && i < |s| && s[i] <= m
    ensures CountAtMost(s, m) >= i + 1
  {
    var le := x => x <= m;
    assert CountAtMost(s, m) == CountIf(s, le);
    assert s == s[..i + 1] + s[i + 1..];
    CountIfAppend(s[..i + 1], s[i + 1..], le);
    var prefix := s[..i + 1];
    assert forall k :: 0 <= k < |prefix| ==> le(prefix[k]);
    CountIfAll(prefix, le);
  }

  /** In a sorted sequence, when `m <= s[i]` the values from position `i`
      on are all at least `m`. */
  lemma {:induction false} SortedSuffixAtLeast(s: seq<real>, i: nat, m: real)
    requires IsSorted(s) && i < |s| && m <= s[i]
    ensures CountAtLeast(s, m) >= |s| - i
  {
    var ge := x => m <= x;
    assert CountAtLeast(s, m) == CountIf(s, ge);
    assert s == s[..i] + s[i..];
    CountIfAppend(s[..i], s[i..], ge);
    var suffix := s[i..];
    assert forall k :: 0 <= k < |suffix| ==> ge(suffix[k]);
    CountIfAll(suffix, ge);
  }

  /** The median splits the values in halves: at least half of them are at
      most the median and at least half are at least the median. */
  lemma {:induction false} MedianSplits(xs: seq<real>)
    requires xs != []
    ensures 2 * CountAtMost(xs, Median(xs)) >= |xs|
    ensures 2 * CountAtLeast(xs, Median(xs)) >= |xs|
  {
    var m := Median(xs);
    var s := Sort(xs);
    SortPermutes(xs);
    assert m == Middle(s);
    var k := |s| / 2;
    CountIfPermutation(xs, s, x => x <= m);
    CountIfPermutation(xs, s, x => m <= x);
    if |s| % 2 == 1 {
      SortedPrefixAtMost(s, k, m);
      SortedSuffixAtLeast(s, k, m);
    } else {
      SortedPrefixAtMost(s, k - 1, m);
      SortedSuffixAtLeast(s, k, m);
    }
  }

  /** The median lies between the smallest and the largest value. */
  lemma {:induction false} MedianBetween(xs: seq<real>)
    requires xs != []
    ensures MinOf(xs) <= Median(xs) <= MaxOf(xs)
  {
    var s := Sort(xs);
    assert Median(xs) == Middle(s);
    var k := |s| / 2;
    SortedFrom(xs, k);
    if |s| % 2 == 0 {
      SortedFrom(xs, k - 1);
    }
  }

  /** The sum of squared distances from `c`. */
  function SquaredDeviations(xs: seq<real>, c: real): real
  {
    if xs == [] then 0.0 else (xs[0] - c) * (xs[0] - c) + SquaredDeviations(xs[1..], c)
  }

  lemma SquareNonnegative(x: real)
    ensures x * x >= 0.0
  {
  }

  lemma {:induction false} SquaredDeviationsNonnegative(xs: seq<real>, c: real)
    ensures SquaredDeviations(xs, c) >= 0.0
  {
    if xs != [] {
      SquareNonnegative(xs[0] - c);
      SquaredDeviationsNonnegative(xs[1..], c);
    }
  }

  /** The population variance (divisor n, not n - 1): never negative. */
  function Variance(xs: seq<real>): (v: real)
    requires xs != []
    ensures v >= 0.0
  {
    var n := |xs| as real;
    var total := SquaredDeviations(xs, Mean(xs));
    SquaredDeviationsNonnegative(xs, Mean(xs));
    QuotientBounds(total, n, 0.0, total);
    total / n
  }

  predicate AllEqual(xs: seq<real>)
  {
    forall i, j :: 0 <= i < |xs| && 0 <= j < |xs| ==> xs[i] == xs[j]
  }

  lemma {:induction false} SquaredDeviationsFromSelf(xs: seq<real>, c: real)
    requires forall i :: 0 <= i < |xs| ==> xs[i] == c
    ensures SquaredDeviations(xs, c) == 0.0
  {
    if xs != [] {
      SquaredDeviationsFromSelf(xs[1..], c);
    }
  }

  lemma {:induction false} SumConstant(xs: seq<real>, c: real)
    requires forall i :: 0 <= i < |xs| ==> xs[i] == c
    ensures Sum(xs) == (|xs| as real) * c
  {
    if xs != [] {
      SumConstant(xs[1..], c);
    }
  }

  /** A column whose values are all equal has mean equal to that value and
      variance zero, so its standard deviation is zero. */
  lemma {:induction false} ConstantVariance(xs: seq<real>)
    requires xs != [] && AllEqual(xs)
    ensures Mean(xs) == xs[0]
    ensures Variance(xs) == 0.0
  {
    var m := Mean(xs);
    SumConstant(xs, xs[0]);
    assert m * (|xs| as real) == xs[0] * (|xs| as real);
    QuotientBounds(Sum(xs), |xs| as real, xs[0], xs[0]);
    SquaredDeviationsFromSelf(xs, xs[0]);
  }
}
