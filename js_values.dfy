/**
 * The JavaScript values the mock request object stores, compares and passes on,
 * and the three foreign codecs it relies on.
 */
module JsValues {
  import opened Wrappers

  /** A JavaScript value. Objects and functions are compared by identity,
      so datatype equality is JavaScript's strict equality (`===`). */
  datatype Value =
    | Undefined
    | Null
    | Bool(b: bool)
    | Num(n: int)
    | Str(s: string)
    | Obj(id: nat)
    | Fn(id: nat)

  /** JavaScript truthiness: `undefined`, `null`, `false`, `0` and `""` are falsy. */
  predicate Truthy(v: Value) {
    match v
    case Undefined => false
    case Null => false
    case Bool(b) => b
    case Num(n) => n != 0
    case Str(s) => s != ""
    case Obj(_) => true
    case Fn(_) => true
  }

  /** Reading a property of a plain object: a missing property reads as `undefined`. */
  function Field(fields: map<string, Value>, name: string): Value {
    if name in fields then fields[name] else Undefined
  }

  /** `async === false ? false : true`: only the value `false` itself turns the flag off. */
  function AsyncFlag(a: Value): (r: bool)
    ensures r == false <==> a == Bool(false)
  {
    !(a == Bool(false))
  }

  /** The foreign decoders and encoders the request object calls but does not define:
      the query-string decoder `deparam`, `JSON.parse` (None when it throws) and
      `JSON.stringify`. They stay uninterpreted. */
  datatype Codecs = Codecs(
    deparam: Option<string> -> Value,
    parseJson: string -> Option<Value>,
    stringify: Value -> Value)
}
