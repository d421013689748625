/** Optional values and results with an error, shared by the other modules. */
module Wrappers {

  /** A value that may be missing: a Go nil slice or pointer is `None`. */
  datatype Option<+T> = None | Some(value: T)

  /** The outcome of an operation that returns `(value, error)` in Go. */
  datatype Result<+T, +E> = Success(value: T) | Failure(error: E)
}
