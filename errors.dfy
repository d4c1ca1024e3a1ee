/** Error-carrying return values shared by every module: Go's `(T, error)` and bare `error` returns. */
module Errors {

  datatype Option<+T> = None | Some(value: T)

  /** A value or an error message, as Go's `(T, error)` pair when exactly one of them is meaningful. */
  datatype Result<+T> = Ok(value: T) | Err(error: string)

  /** A bare Go `error` return: `nil` or an error carrying a message. */
  datatype Outcome = Success | Failure(message: string)
}
