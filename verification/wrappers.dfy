/** Failure-compatible wrappers used across the model. */
module Wrappers {

  /** An optional value; used for decoder and symbol-lookup oracles that may find nothing. */
  datatype Option<+T> = None | Some(value: T)

  /** The outcome of a call that either succeeds or reports a status code. */
  datatype Result<+R, +E> = Success(value: R) | Failure(error: E)
}
