/** Optional values and results with an error, standing in for Go's nil and (value, error) pairs. */
module Wrappers {

  /** A value that may be absent, as a Go pointer or interface that may be nil. */
  datatype Option<+T> = None | Some(value: T)

  /** The outcome of a Go call returning (value, error): a non-nil error wins over the value. */
  datatype Result<+R, +E> = Ok(value: R) | Failure(error: E)
}
