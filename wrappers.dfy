/** Option and Result, the usual failure-compatible wrappers. */
module Wrappers {

  datatype Option<+T> = None | Some(value: T)

  /** A computation that either produced a value or threw an error. */
  datatype Result<+R, +E> = Success(value: R) | Failure(error: E)
}
