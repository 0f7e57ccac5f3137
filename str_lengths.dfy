/** `str_lengths`: the length statistics of a text column, exactly as the
    iterator pipeline computes them. Lengths are UTF-8 byte counts cast to
    `u32`; `min` and `max` run over `Option<u32>` under Rust's derived order,
    in which `None` is below every `Some`; the mean counts a null as length
    0 and divides by the whole column length, rounding down. */
module StrLengths {
  import opened Polars

  /** The number of bytes UTF-8 uses for a character. */
  function Utf8Width(c: char): (w: nat)
    ensures 1 <= w <= 4
    ensures w == 1 <==> (c as int) < 0x80
  {
    if (c as int) < 0x80 then 1
    else if (c as int) < 0x800 then 2
    else if (c as int) < 0x1_0000 then 3
    else 4
  }

  /** `str::len`: the length of a string in UTF-8 bytes, which is its
      character count only when every character is ASCII. */
  function ByteLen(s: string): (n: nat)
    ensures |s| <= n <= 4 * |s|
    ensures n == |s| <==> forall i :: 0 <= i < |s| ==> (s[i] as int) < 0x80
  {
    if s == [] then 0 else Utf8Width(s[0]) + ByteLen(s[1..])
  }

  /** A column whose present cells are all text. */
  predicate AllText(vs: seq<Option<Value>>)
  {
    forall i :: 0 <= i < |vs| ==> vs[i].Some? ==> vs[i].value.Text?
  }

  /** `opt_v.map(|v| v.len() as u32)` over the column. */
  function Lengths(vs: seq<Option<Value>>): seq<Option<u32>>
    requires AllText(vs)
  {
    seq(|vs|, i requires 0 <= i < |vs| =>
      if vs[i].None? then None
      else Some(AsU32(ByteLen(vs[i].value.s))))
  }

  /** One length per cell: null exactly where the cell is null, and the
      byte length itself wherever it fits in `u32`. */
  lemma LengthsCells(vs: seq<Option<Value>>)
    requires AllText(vs)
    ensures |Lengths(vs)| == |vs|
    ensures forall i :: 0 <= i < |vs| ==> (Lengths(vs)[i].None? <==> vs[i].None?)
    ensures forall i :: 0 <= i < |vs| && vs[i].Some? && ByteLen(vs[i].value.s) < U32_LIMIT ==>
      Lengths(vs)[i] == Some(ByteLen(vs[i].value.s))
  {
  }

  /** Rust's derived order on `Option<u32>`: `None` is below every `Some`. */
  predicate OptLe(a: Option<u32>, b: Option<u32>)
  {
    a.None? || (b.Some? && a.value <= b.value)
  }

  /** `Iterator::max`: a greatest element under `OptLe` (the later one on
      ties), or `None` for no elements. */
  function IterMax(ls: seq<Option<u32>>): (r: Option<Option<u32>>)
    ensures r.None? <==> ls == []
    ensures r.Some? ==> r.value in ls
    ensures r.Some? ==> forall l <- ls :: OptLe(l, r.value)
  {
    if ls == [] then None
    else
      var init, last := ls[..|ls| - 1], ls[|ls| - 1];
      assert ls == init + [last];
      match IterMax(init)
      case None => Some(last)
      case Some(m) => Some(if OptLe(m, last) then last else m)
  }

  /** `Iterator::min`: a least element under `OptLe` (the earlier one on
      ties), or `None` for no elements. */
  function IterMin(ls: seq<Option<u32>>): (r: Option<Option<u32>>)
    ensures r.None? <==> ls == []
    ensures r.Some? ==> r.value in ls
    ensures r.Some? ==> forall l <- ls :: OptLe(r.value, l)
  {
    if ls == [] then None
    else
      var init, last := ls[..|ls| - 1], ls[|ls| - 1];
      assert ls == init + [last];
      match IterMin(init)
      case None => Some(last)
      case Some(m) => Some(if OptLe(m, last) then m else last)
  }

  /** The sum of the lengths with nulls counted as 0, before any `u32`
      overflow. */
  function TotalLength(ls: seq<Option<u32>>): nat
  {
    if ls == [] then 0 else ls[0].UnwrapOr(0) + TotalLength(ls[1..])
  }

  /** The sum is 0 exactly when every length, a null counting as 0, is 0. */
  lemma {:induction false} TotalLengthZero(ls: seq<Option<u32>>)
    ensures TotalLength(ls) == 0 <==> forall i :: 0 <= i < |ls| ==> ls[i].UnwrapOr(0) == 0
  {
    if ls != [] {
      TotalLengthZero(ls[1..]);
      assert forall i :: 1 <= i < |ls| ==> ls[i] == ls[1..][i - 1];
    }
  }

  /** What the mean needs so as not to panic: a nonzero divisor
      `len() as u32`. (An overflowing `sum::<u32>()` wraps around in a
      release build and is modelled as such.) */
  predicate MeanDefined(vs: seq<Option<Value>>)
  {
    AsU32(|vs|) != 0
  }

  /** A text column whose length sum and cell count both fit in `u32`, so
      that neither the sum nor the divisor wraps around. */
  predicate FitsU32(s: Series)
    requires AllText(s.values)
  {
    |s.values| < U32_LIMIT && TotalLength(Lengths(s.values)) < U32_LIMIT
  }

  /** `q` is `a / b` rounded down. */
  predicate FloorQuotient(q: nat, a: nat, b: nat)
  {
    q * b <= a < (q + 1) * b
  }

  /** Integer division rounds down: `a / b` is the largest `q` with
      `q * b <= a`. */
  lemma {:induction false} FloorDivision(a: nat, b: nat)
    requires b > 0
    ensures FloorQuotient(a / b, a, b)
  {
    var q, r := a / b, a % b;
    assert a == q * b + r;
    assert (q + 1) * b == q * b + b;
  }

  /** A quotient by a positive divisor is no larger than the dividend. */
  lemma {:induction false} QuotientAtMost(a: nat, b: nat, q: nat)
    requires b > 0 && q * b <= a
    ensures q <= a
  {
    var c := b - 1;
    assert q * b == q * c + q;
  }

  /** `u32` division by a nonzero divisor: the floor of the quotient. */
  function DivU32(total: u32, divisor: u32): (q: u32)
    requires divisor > 0
    ensures FloorQuotient(q, total, divisor)
  {
    FloorDivision(total, divisor);
    QuotientAtMost(total, divisor, total / divisor);
    total / divisor
  }

  /** `str_lengths`: `(mean_len, min_len, max_len)` of a text column, and
      nothing for any other element type. The mean is the floor of the
      null-as-zero length sum, taken modulo 2^32, divided by the `u32`
      column length. */
  function StrLengths(s: Series): (r: Option<(u32, u32, u32)>)
    requires WellTyped(s)
    requires s.dtype == String ==> MeanDefined(s.values)
    ensures r.Some? <==> s.dtype == String
    ensures r.Some? ==>
      FloorQuotient(r.value.0, AsU32(TotalLength(Lengths(s.values))), AsU32(|s.values|))
  {
    match s.dtype
    case String =>
      var lengths := Lengths(s.values);
      var maxLen := IterMax(lengths).UnwrapOr(None);
      var minLen := IterMin(lengths).UnwrapOr(None);
      var meanLen := DivU32(AsU32(TotalLength(lengths)), AsU32(|s.values|));
      Some((meanLen, minLen.UnwrapOr(0), maxLen.UnwrapOr(0)))
    case _ => None
  }

  /** A text column whose length statistics the model defines. */
  predicate IsTextColumn(s: Series)
  {
    s.dtype == String && WellTyped(s) && MeanDefined(s.values)
  }

  /** `max_length` is the largest length among the present strings, or 0
      when there is none: `max` over `Option<u32>` passes over nulls. */
  lemma MaxLengthIsLargest(s: Series)
    requires IsTextColumn(s)
    ensures var ls, max := Lengths(s.values), StrLengths(s).value.2;
      && ((forall i :: 0 <= i < |ls| ==> ls[i].None?) ==> max == 0)
      && ((exists i :: 0 <= i < |ls| && ls[i].Some?) ==> Some(max) in ls)
      && (forall i :: 0 <= i < |ls| && ls[i].Some? ==> ls[i].value <= max)
  {
    var ls := Lengths(s.values);
    var m := IterMax(ls).value;
    assert StrLengths(s).value.2 == m.UnwrapOr(0);
    forall i | 0 <= i < |ls| && ls[i].Some?
      ensures ls[i].value <= m.UnwrapOr(0)
    {
      assert OptLe(ls[i], m);
    }
  }

  /** `min_length` is 0 as soon as one cell is null, because `None` is the
      least `Option<u32>`, whatever the lengths of the present strings. */
  lemma MinLengthWithNull(s: Series)
    requires IsTextColumn(s) && NullCount(s.values) > 0
    ensures StrLengths(s).value.1 == 0
  {
    var vs := s.values;
    var ls := Lengths(vs);
    var m := IterMin(ls).value;
    assert StrLengths(s).value.1 == m.UnwrapOr(0);
    NullCountExtremes(vs);
    var i :| 0 <= i < |vs| && vs[i].None?;
    assert OptLe(m, ls[i]);
  }

  /** With no null, `min_length` is the smallest length. */
  lemma MinLengthWithoutNull(s: Series)
    requires IsTextColumn(s) && NullCount(s.values) == 0
    ensures var ls, min := Lengths(s.values), StrLengths(s).value.1;
      && Some(min) in ls
      && forall i :: 0 <= i < |ls| ==> ls[i].Some? && min <= ls[i].value
  {
    var vs := s.values;
    var ls := Lengths(vs);
    var m := IterMin(ls).value;
    assert StrLengths(s).value.1 == m.UnwrapOr(0);
    NullCountExtremes(vs);
    assert forall i :: 0 <= i < |ls| ==> ls[i].Some?;
    assert m.Some?;
    forall i | 0 <= i < |ls|
      ensures m.value <= ls[i].value
    {
      assert OptLe(m, ls[i]);
    }
  }

  /** The sum of the lengths is at most n times an upper bound of every
      present length. */
  lemma {:induction false} TotalLengthAtMost(ls: seq<Option<u32>>, hi: nat)
    requires forall i :: 0 <= i < |ls| && ls[i].Some? ==> ls[i].value <= hi
    ensures TotalLength(ls) <= hi * |ls|
  {
    if ls != [] {
      TotalLengthAtMost(ls[1..], hi);
      assert hi * |ls| == hi * (|ls| - 1) + hi;
    }
  }

  /** With no null, the sum of the lengths is at least n times a lower
      bound of every length. */
  lemma {:induction false} TotalLengthAtLeast(ls: seq<Option<u32>>, lo: nat)
    requires forall i :: 0 <= i < |ls| ==> ls[i].Some? && lo <= ls[i].value
    ensures lo * |ls| <= TotalLength(ls)
  {
    if ls != [] {
      TotalLengthAtLeast(ls[1..], lo);
      assert lo * |ls| == lo * (|ls| - 1) + lo;
    }
  }

  /** With `q * b <= a < (q + 1) * b`: a bound on `a` in multiples of `b`
      carries over to `q`. */
  lemma {:induction false} QuotientBetween(a: nat, b: nat, q: nat, lo: nat, hi: nat)
    requires b > 0 && q * b <= a < (q + 1) * b
    ensures a <= hi * b ==> q <= hi
    ensures lo * b <= a ==> lo <= q
  {
  }

  /** A quotient of the wrapped sum by `n` is at most `hi` when the true
      sum is at most `hi * n`: wrapping only makes the sum smaller. */
  lemma {:induction false} WrappedQuotientAtMost(total: nat, n: nat, q: nat, hi: nat)
    requires 0 < n < U32_LIMIT
    requires q * AsU32(n) <= AsU32(total) && total <= hi * n
    ensures q <= hi
  {
    assert AsU32(total) <= total;
  }

  /** The mean length is at most any bound on the present lengths, when
      the cell count fits in `u32` (the sum may wrap around). */
  lemma MeanAtMost(s: Series, hi: nat)
    requires IsTextColumn(s) && |s.values| < U32_LIMIT
    requires forall i :: 0 <= i < |Lengths(s.values)| && Lengths(s.values)[i].Some? ==> Lengths(s.values)[i].value <= hi
    ensures StrLengths(s).value.0 <= hi
  {
    var ls := Lengths(s.values);
    TotalLengthAtMost(ls, hi);
    WrappedQuotientAtMost(TotalLength(ls), |s.values|, StrLengths(s).value.0, hi);
  }

  /** With no null, the mean length is at least any lower bound on the
      lengths, when nothing wraps around. */
  lemma MeanAtLeast(s: Series, lo: nat)
    requires IsTextColumn(s) && FitsU32(s)
    requires forall i :: 0 <= i < |Lengths(s.values)| ==> Lengths(s.values)[i].Some? && lo <= Lengths(s.values)[i].value
    ensures lo <= StrLengths(s).value.0
  {
    var ls := Lengths(s.values);
    var n := |s.values|;
    var total := TotalLength(ls);
    var q := StrLengths(s).value.0;
    assert q * n <= total < (q + 1) * n;
    TotalLengthAtLeast(ls, lo);
    assert |ls| == n;
    QuotientBetween(total, n, q, lo, total);
  }

  /** mean_length <= max_length, when the cell count fits in `u32`: a
      wrapped sum is only ever smaller. */
  lemma MeanAtMostMax(s: Series)
    requires IsTextColumn(s) && |s.values| < U32_LIMIT
    ensures StrLengths(s).value.0 <= StrLengths(s).value.2
  {
    MaxLengthIsLargest(s);
    MeanAtMost(s, StrLengths(s).value.2);
  }

  /** min_length <= mean_length when no cell is null (with a null,
      min_length is 0 and the order is immediate). */
  lemma MinAtMostMeanWithoutNull(s: Series)
    requires IsTextColumn(s) && FitsU32(s) && NullCount(s.values) == 0
    ensures StrLengths(s).value.1 <= StrLengths(s).value.0
  {
    MinLengthWithoutNull(s);
    MeanAtLeast(s, StrLengths(s).value.1);
  }

  /** A text column whose every cell is null has all three length
      statistics 0: the nulls are the least lengths, `max` finds no
      present one, and they add up to 0. */
  lemma AllNullLengthsZero(s: Series)
    requires IsTextColumn(s) && NullCount(s.values) == |s.values|
    ensures StrLengths(s) == Some((0, 0, 0))
  {
    var ls := Lengths(s.values);
    var n := |s.values|;
    var r := StrLengths(s).value;
    NullCountExtremes(s.values);
    MaxLengthIsLargest(s);
    MinLengthWithNull(s);
    TotalLengthAtMost(ls, 0);
    assert AsU32(TotalLength(ls)) == 0;
    assert r.0 == 0 / AsU32(n);
  }

  /** min_length <= mean_length <= max_length, when nothing wraps
      around. */
  lemma LengthsOrdered(s: Series)
    requires IsTextColumn(s) && FitsU32(s)
    ensures StrLengths(s).value.1 <= StrLengths(s).value.0 <= StrLengths(s).value.2
  {
    MeanAtMostMax(s);
    if NullCount(s.values) == 0 {
      MinAtMostMeanWithoutNull(s);
    } else {
      MinLengthWithNull(s);
    }
  }
}
