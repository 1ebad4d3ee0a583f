/**
 * Values as JSON.parse hands them back, and the JavaScript truthiness the
 * consent store relies on when it inspects one.  Numbers are integers here:
 * the only numbers the store ever writes are millisecond timestamps.
 */
module JsValue {

  datatype Option<+T> = None | Some(value: T)

  datatype Json =
    | JNull
    | JBool(b: bool)
    | JNumber(n: int)
    | JString(s: string)
    | JArray(items: seq<Json>)
    | JObject(fields: map<string, Json>)

  /** JavaScript truthiness: null, false, 0 and "" are falsy; arrays and objects are truthy. */
  predicate Truthy(v: Json)
    ensures !Truthy(v) <==> v == JNull || v == JBool(false) || v == JNumber(0) || v == JString("")
  {
    match v
    case JNull => false
    case JBool(b) => b
    case JNumber(n) => n != 0
    case JString(s) => s != ""
    case JArray(_) => true
    case JObject(_) => true
  }

  /**
   * The property read `v.key`; None stands for `undefined`.  Only objects own
   * the keys the store reads (reading a property of `null` throws, and the
   * store's catch treats that exactly like a missing property).
   */
  function Field(v: Json, key: string): (r: Option<Json>)
    ensures r.Some? <==> v.JObject? && key in v.fields
    ensures r.Some? ==> r.value == v.fields[key]
  {
    if v.JObject? && key in v.fields then Some(v.fields[key]) else None
  }

  /** `{...defaults, ...v}` seen from one key: v's own value wins, otherwise `default`. */
  function FieldOr(v: Json, key: string, default: Json): Json
  {
    match Field(v, key)
    case Some(x) => x
    case None => default
  }
}
