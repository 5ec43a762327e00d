/** Values shared by every module: nullable values and JavaScript truthiness of strings. */
module JsValues {

  /** A value that may be `null` (or `undefined`) on the JavaScript side. */
  datatype Option<+T> = None | Some(value: T)

  /** A call that either returns a value or throws an error carrying a message. */
  datatype Result<+T> = Ok(value: T) | Err(message: string)

  /** JavaScript truthiness of a nullable string: `null` and `""` are falsy. */
  predicate Truthy(s: Option<string>) {
    s.Some? && s.value != ""
  }

  /** JavaScript's `a || b` on nullable strings: `a` when it is truthy, otherwise `b`. */
  function Or(a: Option<string>, b: Option<string>): Option<string> {
    if Truthy(a) then a else b
  }
}
