/**
 * JSON values as produced by `JSON.parse` and consumed by `JSON.stringify`,
 * with the two JavaScript operations the core applies to them: reading a
 * property (`v.key`) and truthiness (`v && ...`).
 */
module Json {
  import opened Wrappers

  /** Numbers are modelled as integers; every number the core compares is one. */
  datatype Json =
    | JNull
    | JBool(b: bool)
    | JNum(n: int)
    | JStr(s: string)
    | JArr(items: seq<Json>)
    | JObj(fields: map<string, Json>)

  /**
   * Property read `v.key` on a non-null value: only objects carry the keys the
   * core reads ("type", "payload"); any other value yields `undefined` (None).
   */
  function Field(v: Json, key: string): (r: Option<Json>)
    ensures r.Some? <==> v.JObj? && key in v.fields
    ensures r.Some? ==> r.value == v.fields[key]
  {
    match v
    case JObj(fields) => if key in fields then Some(fields[key]) else None
    case _ => None
  }

  /** JavaScript truthiness of a parsed JSON value. */
  predicate Truthy(v: Json) {
    match v
    case JNull => false
    case JBool(b) => b
    case JNum(n) => n != 0
    case JStr(s) => s != ""
    case _ => true
  }

  /** Truthiness of a string that may be `undefined`. */
  predicate Present(s: Option<string>) {
    s.Some? && s.value != ""
  }
}
