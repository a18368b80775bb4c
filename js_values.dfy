/**
 * The JavaScript values, errors and call completions that the dispatch
 * pipeline inspects. Only what the pipeline distinguishes is kept: numbers
 * are integers, and an object is the map of its own properties.
 */
module JsValues {

  datatype Option<T> = None | Some(value: T)

  datatype Result<T, E> = Ok(value: T) | Err(error: E)

  /** A JavaScript value. `Func` is any callable value (a function or a class). */
  datatype Value =
    | Undefined
    | Null
    | Bool(b: bool)
    | Num(n: int)
    | Str(s: string)
    | Arr(items: seq<Value>)
    | Obj(props: map<string, Value>)
    | Func

  /** JavaScript truthiness, as `if (v)` and `v || w` see it. */
  predicate Truthy(v: Value) {
    match v
    case Undefined => false
    case Null => false
    case Bool(b) => b
    case Num(n) => n != 0
    case Str(s) => s != ""
    case _ => true
  }

  /** `a || b`: the first operand when it is truthy, else the second. */
  function Or(a: Value, b: Value): Value {
    if Truthy(a) then a else b
  }

  /** `typeof v` */
  function TypeOf(v: Value): string {
    match v
    case Undefined => "undefined"
    case Null => "object"
    case Bool(_) => "boolean"
    case Num(_) => "number"
    case Str(_) => "string"
    case Arr(_) => "object"
    case Obj(_) => "object"
    case Func => "function"
  }

  /**
   * `_isObject(v)`: `typeof v === 'object' && !Array.isArray(v)`. It holds
   * for exactly the plain objects and, as `typeof null` is 'object', null.
   */
  function IsObject(v: Value): (r: bool)
    ensures r <==> v.Obj? || v.Null?
  {
    TypeOf(v) == "object" && !v.Arr?
  }

  /** `typeof v !== 'undefined'` implies `_isObject(v)`. */
  predicate AbsentOrObject(v: Value) {
    v.Undefined? || IsObject(v)
  }

  /**
   * `v[key]` on a value that is neither null nor undefined: an own property
   * of an object, and undefined for every other key and every other value.
   */
  function Property(v: Value, key: string): Value
    requires !v.Null? && !v.Undefined?
  {
    if v.Obj? && key in v.props then v.props[key] else Undefined
  }

  /** The number a relational comparison turns `v` into; None stands for NaN. */
  function ToNumber(v: Value): Option<int> {
    match v
    case Num(n) => Some(n)
    case Bool(b) => Some(if b then 1 else 0)
    case Null => Some(0)
    case _ => None
  }

  /** `v < n` */
  predicate Less(v: Value, n: int) {
    ToNumber(v).Some? && ToNumber(v).value < n
  }

  /** `v >= n` */
  predicate AtLeast(v: Value, n: int) {
    ToNumber(v).Some? && ToNumber(v).value >= n
  }

  /**
   * A thrown error object: its `name`, `message`, `code` and the private
   * `_httpCode` hint the legacy dispatcher reads. A property the thrower did
   * not set is Undefined (`new Error()` has message "").
   */
  datatype JsError = JsError(name: string, message: Value, code: Value, httpCode: Value)

  /** The TypeError the runtime throws. */
  function TypeError(message: string): JsError {
    JsError("TypeError", Str(message), Undefined, Undefined)
  }

  /** The TypeError thrown by reading property `key` of null. */
  function NullRead(key: string): JsError {
    TypeError("Cannot read properties of null (reading '" + key + "')")
  }

  /** How a call of handler code ends: it returns a value or throws an error. */
  datatype Completion = Returns(value: Value) | Throws(error: JsError)

  /** The body `{ message }`. */
  function MessageBody(message: Value): Value {
    Obj(map["message" := message])
  }
}
