/** Failure-compatible result types used across the model. */
module Wrappers {

  /** A value that may be missing: a failed lookup, a rejected parse. */
  datatype Option<+T> = None | Some(value: T)

  /** A value or the error a Java method would have thrown instead of returning. */
  datatype Result<+R, +E> = Success(value: R) | Failure(error: E)
}
