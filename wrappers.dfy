/** Option and Result, the two failure-carrying datatypes the model uses. */
module Wrappers {

  datatype Option<+T> = None | Some(value: T)

  /** A value or an error message, as a Go `(value, error)` pair or a settled JS promise. */
  datatype Result<+R, +E> = Success(value: R) | Failure(error: E)
}
