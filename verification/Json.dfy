/** The JSON tree that every frame, payload and schema in the SDK is made of. */
module Json {
  import opened Options

  /** Integers and floating-point numbers are kept apart: the decoders of the
      SDK accept only the former where an `i64` is asked for. */
  datatype Json =
    | Null
    | Bool(b: bool)
    | Int(i: int)
    | Float(r: real)
    | Str(s: string)
    | Arr(xs: seq<Json>)
    | Obj(fields: map<string, Json>)

  const I64_MIN: int := -0x8000_0000_0000_0000
  const I64_MAX: int := 0x7FFF_FFFF_FFFF_FFFF

  predicate FitsI64(n: int) {
    I64_MIN <= n <= I64_MAX
  }

  /** `map.get(key)` */
  function Get(fields: map<string, Json>, key: string): Option<Json> {
    if key in fields then Some(fields[key]) else None
  }

  /** `map.get(key).and_then(Value::as_str)` */
  function GetStr(fields: map<string, Json>, key: string): Option<string> {
    if key in fields && fields[key].Str? then Some(fields[key].s) else None
  }

  /** `map.get(key).and_then(Value::as_i64)` */
  function GetI64(fields: map<string, Json>, key: string): Option<int> {
    if key in fields && fields[key].Int? && FitsI64(fields[key].i) then Some(fields[key].i) else None
  }
}
