/**
 * The JavaScript values that `JSON.parse` and `req.json()` produce, and the
 * two JavaScript operations the request handler applies to them: truthiness
 * and property access.
 */
module JsValue {
  import opened JsString

  /**
   * A parsed JSON value (the value kinds of sections 3 to 7 of RFC 8259).
   * Numbers are JavaScript numbers; only whether they are zero matters here.
   * Objects are keyed by their property names; `JSON.parse` keeps one value
   * per name.
   */
  datatype Json =
    | Null
    | Bool(b: bool)
    | Number(n: real)
    | String(s: Text)
    | Array(elements: seq<Json>)
    | Object(properties: map<Text, Json>)

  /** JavaScript `ToBoolean`: `null`, `false`, `0` and `""` are falsy. */
  predicate Truthy(v: Json)
  {
    match v
    case Null => false
    case Bool(b) => b
    case Number(n) => n != 0.0
    case String(s) => s != []
    case Array(_) => true
    case Object(_) => true
  }

  /** What reading `v.key` gives: a value, `undefined`, or a thrown `TypeError`. */
  datatype Property = Present(value: Json) | Undefined | TypeError

  /**
   * The property access `v.key`. Reading a property of `null` throws; an
   * object yields its own property of that name; a name it lacks, and any
   * name on a boolean, number, string or array, yields `undefined`. Only
   * own properties are modelled, which is exact for the names the handler
   * reads (`text`, `cards`): no JSON value inherits a property so named.
   */
  function GetProperty(v: Json, key: Text): (p: Property)
    ensures p == TypeError <==> v == Null
    ensures p.Present? <==> v.Object? && key in v.properties
    ensures p.Present? ==> p.value == v.properties[key]
  {
    match v
    case Null => TypeError
    case Object(properties) => if key in properties then Present(properties[key]) else Undefined
    case _ => Undefined
  }
}
