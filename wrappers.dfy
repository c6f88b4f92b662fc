/** Optional values and results with an error, used for PHP's nullable values and thrown exceptions. */
module Wrappers {

  /** A value that may be absent: PHP's `null`. */
  datatype Option<+T> = None | Some(value: T)

  /** The outcome of a call that either returns a value or raises an error. */
  datatype Result<+R, +E> = Success(value: R) | Failure(error: E)
}
