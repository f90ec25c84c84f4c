/** Failure-compatible wrappers shared by the model: an optional value, a value-or-error
    result (Go's `(T, error)` pair) and a pass-or-error outcome (Go's bare `error`). */
module Wrappers {

  datatype Option<+T> = None | Some(value: T)

  datatype Result<+R, +E> = Success(value: R) | Failure(error: E)

  datatype Outcome<+E> = Pass | Fail(error: E)
}
