/** Option and Result, the two failure-carrying datatypes the guard model uses. */
module Wrappers {

  /** A value that may be missing; `None` plays the part of PHP's `null`. */
  datatype Option<+T> = None | Some(value: T)

  /** The outcome of an operation that either yields a value or fails with an error. */
  datatype Result<+T, +E> = Success(value: T) | Failure(error: E)
}
