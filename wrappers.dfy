/** Optional values and fallible results shared by the models. */
module Wrappers {

  /** A value that may be absent (Go's nil pointer, nil error, or a failed lookup). */
  datatype Option<+T> = None | Some(value: T)

  /** Either a value or an error (Go's `(value, error)` pair where exactly one is meaningful). */
  datatype Result<+R, +E> = Success(value: R) | Failure(error: E)
}
