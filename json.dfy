// The part of `serde_json::Value` the clients inspect: objects are looked up
// one key at a time, numbers are integers in the range serde keeps exactly
// (from the smallest `i64` to the largest `u64`) or opaque floats.
module Json {
  import opened Types
  import Numbers

  type JsonInt = x: int | -0x8000_0000_0000_0000 <= x <= 0xFFFF_FFFF_FFFF_FFFF

  datatype Json =
    | Null
    | Bool(b: bool)
    | Int(i: JsonInt)
    | Float
    | Str(s: string)
    | Arr(items: seq<Json>)
    | Obj(fields: map<string, Json>)

  /** `Value::get(key)`: None unless the value is an object holding key. */
  function Get(v: Json, key: string): (r: Option<Json>)
    ensures r.Some? <==> v.Obj? && key in v.fields
    ensures r.Some? ==> r.value == v.fields[key]
  {
    if v.Obj? && key in v.fields then Some(v.fields[key]) else None
  }

  /** `Option<&Value>::and_then(|v| v.get(key))`. */
  function GetIn(v: Option<Json>, key: string): Option<Json>
  {
    if v.Some? then Get(v.value, key) else None
  }

  /** `Value::as_str`. */
  function AsStr(v: Json): Option<string>
  {
    if v.Str? then Some(v.s) else None
  }

  /** `Value::as_u64`: non-negative integers only. */
  function AsU64(v: Json): (r: Option<u64>)
    ensures r.Some? <==> v.Int? && v.i >= 0
  {
    if v.Int? && v.i >= 0 then Some(v.i) else None
  }

  /** `Value::as_i64`: integers that fit `i64`. */
  function AsI64(v: Json): (r: Option<int>)
    ensures r.Some? <==> v.Int? && v.i < 0x8000_0000_0000_0000
  {
    if v.Int? && v.i < 0x8000_0000_0000_0000 then Some(v.i) else None
  }

  /** `Value::as_array`. */
  function AsArray(v: Json): Option<seq<Json>>
  {
    if v.Arr? then Some(v.items) else None
  }
}
