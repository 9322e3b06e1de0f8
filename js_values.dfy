/** The slice of JavaScript's value world that the data source touches:
    the values a query may be annotated with or may return, the
    truthiness test the coordinator branches on, and the way a call ends
    (normally or by throwing). */
module JsValues {

  /** A JavaScript value. Numbers are reals plus the one falsy non-real, NaN;
      functions, symbols and BigInt never reach the data source and are not
      represented. */
  datatype JsValue =
    | Undefined
    | Null
    | Bool(b: bool)
    | Num(n: real)
    | NaN
    | Str(s: string)
    | Arr(elems: seq<JsValue>)
    | Obj(fields: map<string, JsValue>)

  /** ECMAScript ToBoolean: the test behind `if (entry)` and `if (rows)`.
      Every array and every object is truthy, the empty ones included. */
  predicate Truthy(v: JsValue) {
    match v
    case Undefined => false
    case Null => false
    case Bool(b) => b
    case Num(n) => n != 0.0
    case NaN => false
    case Str(s) => s != ""
    case Arr(_) => true
    case Obj(_) => true
  }

  /** How a call ends: with a value, or by throwing. For an async function
      this is how its promise settles (fulfilled or rejected). */
  datatype Completion<T> = Normal(value: T) | Throw(reason: string)

  /** A configuration property that may be left `undefined`. */
  datatype Option<T> = None | Some(value: T)
}
