/** Option and Result, used for PHP's null and for the exceptions the parser throws. */
module Wrappers {

  /** A value that may be absent, as PHP's `null`. */
  datatype Option<+T> = None | Some(value: T)

  /** The outcome of an operation that either returns a value or throws. */
  datatype Result<+R, +E> = Success(value: R) | Failure(error: E)
}
