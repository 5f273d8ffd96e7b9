/**
 * JSON values as the handlers see them after `JSON.parse`, and the
 * ECMAScript notions the handlers apply to them: truthiness (`!x`) and
 * property lookup on a parsed body (`data?.access_token`, destructuring).
 */
module Json {
  import opened Wrappers

  datatype Json =
    | JNull
    | JBool(b: bool)
    | JNum(n: real)
    | JStr(s: string)
    | JArr(items: seq<Json>)
    | JObj(fields: map<string, Json>)

  /** ECMAScript truthiness of a JSON value: null, false, 0 and "" are falsy, everything else is truthy. */
  predicate Truthy(j: Json) {
    match j
    case JNull => false
    case JBool(b) => b
    case JNum(n) => n != 0.0
    case JStr(s) => s != ""
    case _ => true
  }

  /** Truthiness of a property that may be `undefined` (`None`). */
  predicate Present(v: Option<Json>) {
    v.Some? && Truthy(v.value)
  }

  /**
   * Reading a property of a parsed value: only an object has own properties
   * named like the fields the handlers read; every other value yields `undefined`.
   */
  function Field(j: Json, name: string): (v: Option<Json>)
    ensures v.Some? <==> j.JObj? && name in j.fields
  {
    if j.JObj? && name in j.fields then Some(j.fields[name]) else None
  }

  const EmptyObject: Json := JObj(map[])
}
