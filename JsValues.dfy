/**
 * JSON values as JavaScript sees them once parsed, with the two JavaScript
 * behaviours the gateway depends on: truthiness and property reads.
 */
module JsValues {
  import opened Wrappers

  /** A parsed JSON value. Numbers are taken as exact reals. */
  datatype Value =
    | JNull
    | JBool(b: bool)
    | JNumber(n: real)
    | JString(s: string)
    | JArray(items: seq<Value>)
    | JObject(fields: map<string, Value>)

  /** JavaScript truthiness of a value that is present: the falsy ones are `null`, `false`, `0` and `""`. */
  predicate Truthy(v: Value)
    ensures !Truthy(v) <==> v in {JNull, JBool(false), JNumber(0.0), JString("")}
  {
    match v
    case JNull => false
    case JBool(b) => b
    case JNumber(n) => n != 0.0
    case JString(s) => s != []
    case _ => true
  }

  /** What reading `v.key` yields; `TypeError` is the exception it throws. */
  datatype Read = Found(v: Value) | Undefined | TypeError
  {
    /** The read value is truthy (`undefined` is not). */
    predicate IsTruthy()
    {
      Found? && Truthy(v)
    }
  }

  /**
   * `v.key` for a possibly missing value `v` (`None` is `undefined`).
   * Only own keys of objects are found: the keys read by the model
   * (`title`, `author`, `message`) name no inherited property of any JSON value.
   */
  function Property(v: Option<Value>, key: string): (r: Read)
    ensures r.TypeError? <==> v == None || v == Some(JNull)
    ensures r.Found? <==> v.Some? && v.value.JObject? && key in v.value.fields
    ensures r.Found? ==> r.v == v.value.fields[key]
  {
    match v
    case None => TypeError
    case Some(JNull) => TypeError
    case Some(JObject(fields)) => if key in fields then Found(fields[key]) else Undefined
    case Some(_) => Undefined
  }

  /** The object literal `{ message: m }`. */
  function MessageObject(m: Value): Value
  {
    JObject(map["message" := m])
  }
}
