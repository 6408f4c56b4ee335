/** Option and Result: absence of a value and an operation that may raise. */
module Wrappers {

  datatype Option<+T> = None | Some(value: T)

  /** A Python call either returns a value or raises an error. */
  datatype Result<+T, +E> = Success(value: T) | Failure(error: E)
}
