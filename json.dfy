/**
 * JSON values as `JSON.parse` produces them, JavaScript truthiness and
 * property access on them, and the codec the program uses. The text
 * grammar is not modelled: `JSON.parse` and `JSON.stringify` are a pair of
 * functions supplied by the caller.
 */
module Json {
  import opened Wrappers

  datatype Json =
    | JNull
    | JBool(b: bool)
    | JNumber(n: real)
    | JString(s: string)
    | JArray(items: seq<Json>)
    | JObject(fields: map<string, Json>)

  /** `JSON.parse` (an error carries the SyntaxError's message) and `JSON.stringify`. */
  datatype JsonCodec = JsonCodec(parse: string -> Result<Json, string>, stringify: Json -> string)

  /** `v.key`: an own property of an object, and `undefined` (None) for every other value. */
  function Field(v: Json, key: string): Option<Json> {
    if v.JObject? && key in v.fields then Some(v.fields[key]) else None
  }

  /** JavaScript truthiness of a value that may be `undefined`. */
  predicate Truthy(v: Option<Json>) {
    match v
    case None => false
    case Some(JNull) => false
    case Some(JBool(b)) => b
    case Some(JNumber(n)) => n != 0.0
    case Some(JString(s)) => s != ""
    case Some(JArray(_)) => true
    case Some(JObject(_)) => true
  }
}
