/** Parsed JSON values as the handlers receive them (`JSON.parse` output,
    the `errors` payload of a validation error), with JavaScript truthiness. */
module JsValues {

  datatype JsValue =
    | JsNull
    | JsBool(b: bool)
    | JsNumber(n: real)
    | JsString(s: string)
    | JsArray(items: seq<JsValue>)
    | JsObject(entries: seq<(string, JsValue)>)

  /** What `if (v)` accepts: everything except `null`, `false`, `0` and `""`
      (`NaN` is not a JSON value). Arrays and objects are truthy even when empty. */
  predicate Truthy(v: JsValue) {
    match v
    case JsNull => false
    case JsBool(b) => b
    case JsNumber(n) => n != 0.0
    case JsString(s) => |s| > 0
    case JsArray(_) => true
    case JsObject(_) => true
  }
}
