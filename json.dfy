/** The loosely typed JSON document of an event payload, with the serde_json accessors the core uses. */
module Json {
  import opened Wrappers
  import opened Casts

  /** A JSON value; every number that is not an integer is one `NonInt` case. */
  datatype Value =
    | Null
    | Bool(b: bool)
    | Int(n: int)
    | NonInt
    | Str(s: string)
    | Arr(items: seq<Value>)
    | Obj(fields: map<string, Value>)

  /** `v[key]`: the member under `key`, or `Null` when `v` is not an object or has no such member. */
  function Index(v: Value, key: string): Value {
    if v.Obj? && key in v.fields then v.fields[key] else Null
  }

  /** `v.as_str()`. */
  function AsStr(v: Value): Option<string> {
    if v.Str? then Some(v.s) else None
  }

  /** `v.as_i64()`: only integers that fit in an i64. */
  function AsI64(v: Value): Option<I64> {
    if v.Int? && -0x8000_0000_0000_0000 <= v.n < 0x8000_0000_0000_0000 then Some(v.n) else None
  }

  /** `v.as_array()`. */
  function AsArray(v: Value): Option<seq<Value>> {
    if v.Arr? then Some(v.items) else None
  }
}
