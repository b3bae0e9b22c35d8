/** The JavaScript values that travel through the error types as `innerError` and
    `contextData`, with JavaScript's notion of truthiness. */
module JsValue {

  datatype Value =
    | Undefined
    | Null
    | Bool(b: bool)
    | Number(n: real)
    | Str(s: string)
    | Array(items: seq<Value>)
    | Object(fields: map<string, Value>)

  /** `!!v` in JavaScript: `undefined`, `null`, `false`, `0` and `""` are falsy; arrays and
      objects, even empty ones, are truthy. */
  predicate Truthy(v: Value) {
    match v
    case Undefined => false
    case Null => false
    case Bool(b) => b
    case Number(n) => n != 0.0
    case Str(s) => s != ""
    case Array(_) => true
    case Object(_) => true
  }
}
