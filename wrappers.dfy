/** Optional values and error-carrying results, standing in for Go's nil
    pointers and its (value, error) return pairs. */
module Wrappers {

  /** A value that may be absent: `None` plays the part of a nil pointer. */
  datatype Option<+T> = None | Some(value: T)

  /** The outcome of a Go call returning `(T, error)`: `Failure` carries the
      error's message and stands for a nil (zero) value with a non-nil error. */
  datatype Result<+T> = Success(value: T) | Failure(error: string)
}
