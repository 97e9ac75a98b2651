/** The loosely typed values a tool call carries: what JSON can express,
    plus `undefined` for an absent field or an absent argument object. */
module JsValue {

  datatype Value =
    | Undefined
    | Null
    | Bool(b: bool)
    | Number(n: real)
    | Str(s: string)
    | Array(items: seq<Value>)
    | Object(fields: map<string, Value>)

  /** JavaScript truthiness: `undefined`, `null`, `false`, `0` and `""` are
      falsy; arrays and objects, even empty ones, are truthy. */
  predicate Truthy(v: Value) {
    match v
    case Undefined => false
    case Null => false
    case Bool(b) => b
    case Number(n) => n != 0.0
    case Str(s) => s != ""
    case Array(_) => true
    case Object(_) => true
  }

  /** The `typeof` operator; note that `typeof null` is "object". */
  function TypeOf(v: Value): string {
    match v
    case Undefined => "undefined"
    case Null => "object"
    case Bool(_) => "boolean"
    case Number(_) => "number"
    case Str(_) => "string"
    case Array(_) => "object"
    case Object(_) => "object"
  }

  /** Array.isArray. */
  predicate IsArray(v: Value) {
    v.Array?
  }

  /** An object's own fields, as a `Record<string, unknown>`. */
  type Record = map<string, Value>

  /** `input[key]`: a missing key reads as `undefined`. */
  function Lookup(input: Record, key: string): Value {
    if key in input then input[key] else Undefined
  }
}
