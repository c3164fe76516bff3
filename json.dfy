/** Decoded JSON values, as `json.loads` hands them to the Python code, and
    the handful of dict/list operations the handlers apply to them, each with
    the exception it raises made explicit. Only integral numbers are kept. */
module Json {
  import opened Base
  import PyText

  datatype Json =
    | JNull
    | JBool(b: bool)
    | JNum(n: int)
    | JStr(s: string)
    | JArr(items: seq<Json>)
    | JObj(fields: map<string, Json>)

  /** Python truthiness, `bool(v)`. */
  predicate Truthy(v: Json) {
    match v
    case JNull => false
    case JBool(b) => b
    case JNum(n) => n != 0
    case JStr(s) => s != ""
    case JArr(items) => items != []
    case JObj(fields) => fields != map[]
  }

  /** `v.get(key, default)`: raises `AttributeError` unless `v` is a dict. */
  function Get(v: Json, key: string, default: Json): (r: Result<Json>)
    ensures r.Ok? <==> v.JObj?
    ensures r.Ok? ==> r.value == if key in v.fields then v.fields[key] else default
  {
    match v
    case JObj(fields) => Ok(if key in fields then fields[key] else default)
    case _ => Err
  }

  /** `v[key]` with a string key: only a dict holding the key answers. */
  function Index(v: Json, key: string): (r: Result<Json>)
    ensures r.Ok? <==> v.JObj? && key in v.fields
  {
    if v.JObj? && key in v.fields then Ok(v.fields[key]) else Err
  }

  /** `key in v`: dict keys, list elements, or substrings; `TypeError` otherwise. */
  function In(key: string, v: Json): (r: Result<bool>)
    ensures r.Ok? <==> v.JObj? || v.JArr? || v.JStr?
  {
    match v
    case JObj(fields) => Ok(key in fields)
    case JArr(items) => Ok(JStr(key) in items)
    case JStr(s) => Ok(PyText.Contains(s, key))
    case _ => Err
  }
}
