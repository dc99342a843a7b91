/** The values that decoding the endpoint's JSON response yields. */
module Json {

  import opened Wrappers

  /** A decoded JSON value: null, a boolean, a number (integers only here),
      a string, an array or an object (Python's None, bool, int, str, list, dict). */
  datatype Value =
    | Null
    | Bool(b: bool)
    | Num(n: int)
    | Str(s: string)
    | Arr(items: seq<Value>)
    | Obj(fields: map<string, Value>)

  /** The value reached from `v` by following the keys of `path` through
      nested objects, or None when some step is not an object holding the key. */
  function At(v: Value, path: seq<string>): Option<Value>
    decreases |path|
  {
    if path == [] then Some(v)
    else
      match v
      case Obj(m) => if path[0] in m then At(m[path[0]], path[1..]) else None
      case _ => None
  }
}
