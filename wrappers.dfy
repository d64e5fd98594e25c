/**
 * Optional values, the model's stand-in for a Java reference that may be
 * null, and results, its stand-in for a call that may throw.
 */
module Wrappers {

  datatype Option<+T> = None | Some(value: T)

  datatype Result<+R, +E> = Success(value: R) | Failure(error: E)
}
