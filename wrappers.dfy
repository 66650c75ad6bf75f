/** Option and Result, the two failure-carrying datatypes the model uses in
    place of PHP's nullable values and thrown exceptions. */
module Wrappers {

  /** A value that may be missing: PHP's `null` is `None`. */
  datatype Option<+T> = None | Some(value: T)

  /** The outcome of an operation that may throw: `Failure` carries what an
      `\InvalidArgumentException` would have reported. */
  datatype Result<+R, +E> = Success(value: R) | Failure(error: E)
}
