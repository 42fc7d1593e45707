/** Failure-carrying wrappers used throughout the model: Go's `(T, error)` pairs
    become `Result`, a bare `error` return becomes `Outcome`, and a nil-able
    value becomes `Option`. */
module Outcomes {

  /** A value that may be absent (a Go nil interface or pointer). */
  datatype Option<+T> = None | Some(value: T)

  /** A value or the error that prevented it (Go's `(T, error)`). */
  datatype Result<+T, +E> = Ok(value: T) | Err(error: E)

  /** A Go `error` return: nil becomes `Pass`, anything else `Fail`. */
  datatype Outcome<+E> = Pass | Fail(error: E)
}
