/**
 * Untyped JSON values as the components receive them before their runtime shape checks
 * (`typeof v === "object" && v !== null && "key" in v`), with JavaScript truthiness.
 */
module Json {

  datatype JsValue =
    | JsUndefined
    | JsNull
    | JsBool(b: bool)
    | JsNumber(n: real)
    | JsString(s: string)
    | JsArray(items: seq<JsValue>)
    | JsObject(fields: map<string, JsValue>)

  /** `typeof v === "object" && v !== null && key in v`, for the non-index keys the dashboard checks. */
  predicate HasKey(v: JsValue, key: string) {
    v.JsObject? && key in v.fields
  }

  /** `v[key]`, which is `undefined` for a missing key. */
  function Get(v: JsValue, key: string): (r: JsValue)
    ensures !HasKey(v, key) ==> r == JsUndefined
  {
    if HasKey(v, key) then v.fields[key] else JsUndefined
  }

  /** `v` is an object holding every one of `keys`. */
  predicate HasKeys(v: JsValue, keys: seq<string>) {
    forall i :: 0 <= i < |keys| ==> HasKey(v, keys[i])
  }

  /** JavaScript truthiness (`NaN` is not modelled, so every number but 0 is truthy). */
  predicate Truthy(v: JsValue) {
    match v
    case JsUndefined => false
    case JsNull => false
    case JsBool(b) => b
    case JsNumber(n) => n != 0.0
    case JsString(s) => s != ""
    case JsArray(_) => true
    case JsObject(_) => true
  }
}
