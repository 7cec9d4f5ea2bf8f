/** Optional values and results with an error, used for Go's nil pointers and (value, error) pairs. */
module Wrappers {

  /** A value that may be absent; `None` stands for a Go nil pointer. */
  datatype Option<+T> = None | Some(value: T)

  /** The outcome of a Go call returning `(value, error)`: exactly one of the two is set. */
  datatype Result<+T, +E> = Success(value: T) | Failure(error: E)
}
