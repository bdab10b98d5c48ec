/** Optional values and results, standing for Go's nil pointers and (value, error) pairs. */
module Wrappers {

  /** A pointer that may be nil, or a lookup that may miss (Go's `v, ok := ...`). */
  datatype Option<+T> = None | Some(value: T)

  /** A Go call returning `(value, err)`: either the value or the non-nil error's text. */
  datatype Result<+R, +E> = Success(value: R) | Failure(error: E)
}
