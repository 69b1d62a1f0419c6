/** Values shared by every part of the model: optional values and the JSON
    values that request bodies and the `design_data` column carry. */
module Common {

  datatype Option<+T> = None | Some(value: T) {
    function GetOr(default: T): T {
      match this
      case Some(v) => v
      case None => default
    }
  }

  /** A JSON value, as `request.json()` and the database deliver it. */
  datatype Json =
    | JNull
    | JBool(b: bool)
    | JNumber(n: int)
    | JString(s: string)
    | JArray(items: seq<Json>)
    | JObject(fields: map<string, Json>)

  /** JavaScript truthiness of a JSON value (`0`, `''`, `false` and `null`
      are falsy; every array and object is truthy). */
  predicate Truthy(v: Json) {
    match v
    case JNull => false
    case JBool(b) => b
    case JNumber(n) => n != 0
    case JString(s) => s != ""
    case JArray(_) => true
    case JObject(_) => true
  }

  /** JavaScript truthiness of an optional string: `undefined`, `null` and
      `''` are falsy. */
  predicate Present(v: Option<string>) {
    v.Some? && v.value != ""
  }

  /** `v || fallback` on an optional string. */
  function OrElse(v: Option<string>, fallback: string): string {
    if Present(v) then v.value else fallback
  }
}
