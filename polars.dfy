/** The host engine's vocabulary as the profiler sees it: element types,
    schema fields, nullable column values and the unsigned 32-bit integers
    of the output. */
module Polars {

  /** Rust's `Option`. */
  datatype Option<+T> = None | Some(value: T)
  {
    /** `unwrap_or`: the held value, or `default` for `None`. */
    function UnwrapOr(default: T): T
    {
      match this
      case Some(v) => v
      case None => default
    }
  }

  const U32_LIMIT: int := 0x1_0000_0000

  /** Rust's `u32`. */
  type u32 = x: int | 0 <= x < 0x1_0000_0000

  /** The cast `n as u32` from `usize`: keeps the low 32 bits. */
  function AsU32(n: nat): (r: u32)
    ensures n < U32_LIMIT ==> r == n
    ensures (n - r) % U32_LIMIT == 0
  {
    n % U32_LIMIT
  }

  /** The element type tag of a column. Every tag the profiler does not
      name is `Other`. */
  datatype DType =
    | UInt8 | UInt16 | UInt32 | UInt64
    | Int8 | Int16 | Int32 | Int64
    | Float32 | Float64
    | String
    | Struct(fields: seq<Field>)
    | Other(tag: string)

  /** A named, typed slot of a schema. */
  datatype Field = Field(name: string, dtype: DType)

  /** One present cell of a column. Integers of every width are `Int`,
      both float widths are `Float`; `Opaque` stands for a value of a type
      the profiler never looks into (a struct row, a date, ...). */
  datatype Value = Int(i: int) | Float(x: real) | Text(s: string) | Opaque

  /** A named column whose cells may be null. */
  datatype Series = Series(name: string, dtype: DType, values: seq<Option<Value>>)

  /** The ten element types the numeric dispatchers accept. */
  predicate IsNumeric(t: DType)
  {
    match t
    case UInt8 | UInt16 | UInt32 | UInt64 => true
    case Int8 | Int16 | Int32 | Int64 => true
    case Float32 | Float64 => true
    case _ => false
  }

  /** Whether `v` is a value of element type `t`: integers within the
      range of their width, floats as floats, text as text. */
  predicate Fits(t: DType, v: Value)
  {
    match t
    case UInt8 => v.Int? && 0 <= v.i < 0x100
    case UInt16 => v.Int? && 0 <= v.i < 0x1_0000
    case UInt32 => v.Int? && 0 <= v.i < 0x1_0000_0000
    case UInt64 => v.Int? && 0 <= v.i < 0x1_0000_0000_0000_0000
    case Int8 => v.Int? && -0x80 <= v.i < 0x80
    case Int16 => v.Int? && -0x8000 <= v.i < 0x8000
    case Int32 => v.Int? && -0x8000_0000 <= v.i < 0x8000_0000
    case Int64 => v.Int? && -0x8000_0000_0000_0000 <= v.i < 0x8000_0000_0000_0000
    case Float32 => v.Float?
    case Float64 => v.Float?
    case String => v.Text?
    case Struct(_) => true
    case Other(_) => true
  }

  /** A column whose present cells all belong to its element type, as the
      engine's typed arrays guarantee. */
  predicate WellTyped(s: Series)
  {
    forall i :: 0 <= i < |s.values| ==> s.values[i].Some? ==> Fits(s.dtype, s.values[i].value)
  }

  /** `null_count()`: the number of null cells. */
  function NullCount(vs: seq<Option<Value>>): (n: nat)
    ensures n <= |vs|
  {
    if vs == [] then 0
    else (if vs[0].None? then 1 else 0) + NullCount(vs[1..])
  }

  /** The null count is the length exactly when every cell is null, and 0
      exactly when every cell is present. */
  lemma {:induction false} NullCountExtremes(vs: seq<Option<Value>>)
    ensures NullCount(vs) == |vs| <==> forall i :: 0 <= i < |vs| ==> vs[i].None?
    ensures NullCount(vs) == 0 <==> forall i :: 0 <= i < |vs| ==> vs[i].Some?
  {
    if vs != [] {
      NullCountExtremes(vs[1..]);
      assert forall i :: 1 <= i < |vs| ==> vs[i] == vs[1..][i - 1];
    }
  }
}
