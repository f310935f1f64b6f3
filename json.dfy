/**
 * The nested documents the engine works on: Python dicts, lists and scalars
 * as they come out of JSON and MongoDB.  Object keys are strings; a dict's
 * insertion order is not part of the value (the content hasher ignores it).
 */
module Json {

  datatype Value =
    | Null
    | Bool(b: bool)
    | Int(i: int)
    | Str(s: string)
    | Arr(items: seq<Value>)
    | Obj(fields: map<string, Value>)

  /** Python can use the value as a dict key or set element (lists and dicts cannot). */
  predicate Hashable(v: Value) {
    !v.Arr? && !v.Obj?
  }

  /** Python's `d.get(key, default)`. */
  function Get(d: map<string, Value>, key: string, default: Value): (r: Value)
    ensures key in d ==> r == d[key]
    ensures key !in d ==> r == default
  {
    if key in d then d[key] else default
  }
}
