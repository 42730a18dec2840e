/** Failure-carrying datatypes shared by every module of the model. */
module Wrappers {

  /** A value that may be absent (a lookup's `found` flag, a nil pointer). */
  datatype Option<+T> = None | Some(value: T)

  /** A value or an error (Go's `(value, error)` return pairs). */
  datatype Result<+T, +E> = Ok(value: T) | Err(error: E)
}
