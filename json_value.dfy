/** A parsed JSON value, with the two JavaScript operations the API route
    applies to one: reading a property and testing truthiness. */
module JsonValue {
  import JsString
  import opened Options

  /** Numbers are reals: JSON has no NaN or infinity. Object keys are kept as a
      map, so key order is not modelled. */
  datatype Json =
    | Null
    | Bool(b: bool)
    | Number(n: real)
    | Str(s: string)
    | Arr(items: seq<Json>)
    | Obj(fields: map<string, Json>)

  /** JavaScript truthiness of a parsed value: `null`, `false`, `0` and `""`
      are falsy; every array and object is truthy. */
  predicate Truthy(v: Json) {
    match v
    case Null => false
    case Bool(b) => b
    case Number(n) => n != 0.0
    case Str(s) => JsString.Truthy(s)
    case Arr(_) => true
    case Obj(_) => true
  }

  /** `v.key` for a value other than `null`: the member of an object, and
      `undefined` (None) for a missing member or a value that is not an object.
      Reading a property of `null` throws, so `v` must not be `null`. */
  function Property(v: Json, key: string): Option<Json>
    requires !v.Null?
  {
    match v
    case Obj(fields) => if key in fields then Some(fields[key]) else None
    case _ => None
  }
}
