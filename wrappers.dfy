/** Failure-carrying wrappers: Go's `nil` pointers and `(value, error)` pairs. */
module Wrappers {

  /** A value that may be absent (a Go slice or pointer that may be `nil`). */
  datatype Option<+T> = None | Some(value: T)

  /** A value or the error returned in its place. */
  datatype Result<+T, +E> = Ok(value: T) | Err(error: E)
}
