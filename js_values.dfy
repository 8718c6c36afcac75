/** JavaScript values as the session code uses them: a string that may be
    `null`/`undefined`, its truthiness, and the `a || b` idiom. */
module JsValues {

  datatype Option<+T> = None | Some(value: T)

  /** An operation that either yields a value or reports a user-facing message. */
  datatype Result<+T> = Ok(value: T) | Err(message: string)

  /** A nullable string is truthy when it is present and not the empty string. */
  predicate Truthy(s: Option<string>)
  {
    s.Some? && s.value != []
  }

  /** `a || b` on nullable strings: `a` when it is truthy, `b` otherwise. */
  function Or(a: Option<string>, b: Option<string>): Option<string>
  {
    if Truthy(a) then a else b
  }

  /** `s.startsWith(prefix)`. */
  predicate StartsWith(s: string, prefix: string)
  {
    prefix <= s
  }
}
