/** Failure-compatible wrappers: Go's nil pointers, (value, error) pairs and error returns. */
module Wrappers {

  /** A value that may be absent (a Go pointer or error that may be nil). */
  datatype Option<+T> = None | Some(value: T)

  /** A Go `(value, error)` pair where exactly one side is meaningful. */
  datatype Result<+T, +E> = Success(value: T) | Failure(error: E)

  /** The outcome of one call into an external store or library: it went through, or it failed with a message. */
  datatype Outcome = Pass | Fail(error: string)
}
