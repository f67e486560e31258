/** Values shared by the backend and the frontend model. */
module Common {

  /** A JavaScript value that may be absent (`undefined` / `null`). */
  datatype Option<+T> = None | Some(value: T)

  /** The outcome of an operation that can fail with a message. */
  datatype Result<+R> = Ok(value: R) | Err(error: string)

  /** A user record as the backend sends it: `{ id, email, name }`. */
  datatype User = User(id: int, email: string, name: string)

  /**
   * The claims a verified token decodes to. Every field is optional because
   * any payload signed with the server secret verifies, not only the ones
   * that the login route issues.
   */
  datatype Claims = Claims(id: Option<int>, email: Option<string>, name: Option<string>)

  /** `Math.min` of two integers. */
  function Min(a: int, b: int): int
  {
    if a <= b then a else b
  }

  /** JavaScript truthiness of an optional string: absent and "" are falsy. */
  predicate TruthyText(s: Option<string>)
  {
    s.Some? && s.value != ""
  }
}
