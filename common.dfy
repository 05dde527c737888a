/** Values shared by the two services: optional values (the Java code's
    nullable references), results of operations that may throw, and the
    errors they throw. */
module Common {

  /** A Java reference that may be null. */
  datatype Option<+T> = None | Some(value: T)

  /** The value an operation returns, or the exception it throws. */
  datatype Result<+T> = Ok(value: T) | Err(error: Error)

  /** The outcome of an operation that returns nothing (`void`) but may throw. */
  datatype Outcome = Pass | Fail(error: Error)

  /** The only HTTP status the services attach to an error. */
  datatype HttpStatus = NOT_FOUND

  /** `Runtime` is a `RuntimeException` carrying its message; `ApiException` is
      the structured exception the login and logout operations throw. */
  datatype Error =
    | Runtime(message: string)
    | ApiException(message: string, errors: seq<string>, status: HttpStatus)

  /** The value carried by `value` when present, otherwise `otherwise`. */
  function Prefer<T>(value: Option<T>, otherwise: T): T
  {
    if value.Some? then value.value else otherwise
  }
}
