/** Small value types shared by the model of the authentication back end. */
module Common {

  datatype Option<+T> = None | Some(value: T)

  datatype Result<+T, +E> = Success(value: T) | Failure(error: E)

  /** A point in time in milliseconds; every clock reading is passed in as a parameter. */
  type Time = int

  /** JavaScript truthiness of an optional string from a request body:
      `undefined` and the empty string are falsy, every other string is truthy. */
  predicate Truthy(s: Option<string>) {
    s.Some? && s.value != ""
  }

  /** The JavaScript values a handler tests for truthiness: booleans and promises. */
  datatype JsValue = JsBool(b: bool) | JsPromise(settlesTo: JsValue)

  /** JavaScript truthiness: `false` is falsy; every object, a promise included, is truthy. */
  predicate IsTruthy(v: JsValue) {
    match v
    case JsBool(b) => b
    case JsPromise(_) => true
  }

  /** `await v`: a promise gives the value it settles to; any other value is given back as it is. */
  function Await(v: JsValue): (r: JsValue)
    ensures v.JsPromise? ==> r == v.settlesTo
    ensures v.JsBool? ==> r == v
  {
    match v
    case JsPromise(x) => x
    case JsBool(_) => v
  }

  /** Applies `f` to a present value and leaves an absent one absent. */
  function MapOption<T, U>(o: Option<T>, f: T -> U): (r: Option<U>)
    ensures r.Some? <==> o.Some?
  {
    match o
    case None => None
    case Some(v) => Some(f(v))
  }
}
