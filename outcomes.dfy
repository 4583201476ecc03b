/** Go's nil-able values and its error returns, with an error carried as its message text. */
module Outcomes {

  /** A value that may be absent: a Go pointer or slice that may be nil. */
  datatype Option<+T> = None | Some(value: T)

  /** A `(T, error)` pair in which exactly one side is meaningful. */
  datatype Result<+T> = Ok(value: T) | Err(error: string)

  /** A bare `error` return: nil, or an error with its message. */
  datatype Outcome = Pass | Fail(error: string)
}
