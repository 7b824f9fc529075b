/** Failure-carrying wrappers shared by the rest of the model. */
module Wrappers {

  /** A value that may be absent; models a Go `error` that may be nil. */
  datatype Option<+T> = None | Some(value: T)

  /** Either a value or an error; models a Go `(value, error)` pair. */
  datatype Result<+R, +E> = Success(value: R) | Failure(error: E)
}
