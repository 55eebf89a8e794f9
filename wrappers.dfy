/** Failure-compatible wrappers shared by the model. */
module Wrappers {

  /** A value that may be missing: a configuration key that is absent or holds null. */
  datatype Option<+T> = None | Some(value: T)

  /** The outcome of an operation that either completes with a value or raises an error. */
  datatype Result<+R, +E> = Success(value: R) | Failure(error: E)
}
