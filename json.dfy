/**
 * The part of serde_json's `Value` that the explorer adapters touch: the value
 * itself, indexing by key, and the `as_str` / `as_array` / `as_object` /
 * comparison helpers, with serde's behaviour for missing keys and wrong kinds.
 */
module Json {
  import opened Wrappers
  import Assoc

  /** serde keeps integers (u64 or i64) apart from floats; a float is kept abstract. */
  datatype Number = Int(i: int) | Float(mantissa: int, exponent: int)

  /**
   * A JSON value. An object is the sequence of its members as parsed; a key
   * that appears twice is looked up at its last occurrence, as serde's parser
   * keeps the last duplicate.
   */
  datatype Json =
    | Null
    | Bool(b: bool)
    | Num(n: Number)
    | Str(s: string)
    | Array(elems: seq<Json>)
    | Object(members: seq<(string, Json)>)

  /** `v[key]`: the member's value, or Null when `v` is not an object or has no such member. */
  function Index(v: Json, key: string): (r: Json)
    ensures v.Object? && Assoc.Get(v.members, key).Some? ==> r == Assoc.Get(v.members, key).value
    ensures !v.Object? || Assoc.Get(v.members, key).None? ==> r == Null
  {
    if v.Object? then Assoc.Get(v.members, key).UnwrapOr(Null) else Null
  }

  /** `v.as_str()`. */
  function AsStr(v: Json): (r: Option<string>)
    ensures r.Some? <==> v.Str?
    ensures r.Some? ==> r.value == v.s
  {
    if v.Str? then Some(v.s) else None
  }

  /** `v.as_str().unwrap_or(default)`. */
  function StrOr(v: Json, default: string): (r: string)
    ensures v.Str? ==> r == v.s
    ensures !v.Str? ==> r == default
  {
    AsStr(v).UnwrapOr(default)
  }

  /** `v.as_array()`. */
  function AsArray(v: Json): (r: Option<seq<Json>>)
    ensures r.Some? <==> v.Array?
    ensures r.Some? ==> r.value == v.elems
  {
    if v.Array? then Some(v.elems) else None
  }

  /** `v.as_object()`. */
  function AsObject(v: Json): (r: Option<seq<(string, Json)>>)
    ensures r.Some? <==> v.Object?
    ensures r.Some? ==> r.value == v.members
  {
    if v.Object? then Some(v.members) else None
  }

  const I64Min: int := -0x8000_0000_0000_0000
  const I64Max: int := 0x7FFF_FFFF_FFFF_FFFF

  /** `v.as_i64()`: integers that fit in i64; floats and larger integers give None. */
  function AsI64(v: Json): (r: Option<int>)
    ensures r.Some? ==> v == Num(Int(r.value)) && I64Min <= r.value <= I64Max
    ensures v.Num? && v.n.Int? && I64Min <= v.n.i <= I64Max ==> r == Some(v.n.i)
  {
    if v.Num? && v.n.Int? && I64Min <= v.n.i <= I64Max then Some(v.n.i) else None
  }

  /** `v == s` for a `&str`: holds only of a JSON string with exactly that text. */
  predicate EqStr(v: Json, s: string): (r: bool)
    ensures r <==> v == Str(s)
  {
    AsStr(v) == Some(s)
  }

  /** `v == i` for an `i32`: compares through `as_i64`, so only integer numbers can match. */
  predicate EqInt(v: Json, i: int): (r: bool)
    ensures r <==> I64Min <= i <= I64Max && v == Num(Int(i))
  {
    AsI64(v) == Some(i)
  }
}
