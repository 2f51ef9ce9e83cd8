/**
 * Parsed JSON as the HTTP handlers see it, with Python's truthiness:
 * `if not data`, `if not valor` and `dict.get(k, default)` all go through
 * these definitions.
 */
module JsonValue {

  datatype Value =
    | JNull
    | JBool(b: bool)
    | JInt(i: int)
    | JStr(s: string)
    | JList(items: seq<Value>)
    | JObject(fields: map<string, Value>)

  /** Python's `bool(v)`: null, false, 0, "", [] and {} are false, everything else is true. */
  predicate Truthy(v: Value) {
    match v
    case JNull => false
    case JBool(b) => b
    case JInt(i) => i != 0
    case JStr(s) => s != ""
    case JList(items) => items != []
    case JObject(fields) => fields != map[]
  }

  /** `d.get(key, default)` on a JSON object. */
  function Get(d: map<string, Value>, key: string, default: Value): (r: Value)
    ensures key in d ==> r == d[key]
    ensures key !in d ==> r == default
  {
    if key in d then d[key] else default
  }
}
