/** JSON values as `JSON.stringify` writes them and `JSON.parse` reads them
    back: a member whose value is `undefined` is simply absent from an object. */
module JsonValues {
  import opened Wrappers

  datatype Json =
    | JNull
    | JBool(b: bool)
    | JNum(n: real)
    | JStr(s: string)
    | JArr(items: seq<Json>)
    | JObj(fields: map<string, Json>)

  /** JavaScript truthiness of a parsed value. */
  predicate IsTruthy(j: Json) {
    match j
    case JNull => false
    case JBool(b) => b
    case JNum(n) => n != 0.0
    case JStr(s) => s != ""
    case _ => true
  }

  /** `v || fallback` for a member `v` that may be undefined. */
  function OrElse(v: Option<Json>, fallback: Json): (r: Json)
    ensures v.Some? && IsTruthy(v.value) ==> r == v.value
    ensures !(v.Some? && IsTruthy(v.value)) ==> r == fallback
  {
    if v.Some? && IsTruthy(v.value) then v.value else fallback
  }

  /** `obj[key]`, `None` standing for `undefined`. */
  function Get(fields: map<string, Json>, key: string): Option<Json> {
    if key in fields then Some(fields[key]) else None
  }

  /** An object member that `JSON.stringify` writes only when it is defined. */
  function Optional(fields: map<string, Json>, key: string, v: Option<Json>): (r: map<string, Json>)
    ensures v.Some? ==> r == fields[key := v.value]
    ensures v.None? ==> r == fields
  {
    match v
    case Some(x) => fields[key := x]
    case None => fields
  }
}
