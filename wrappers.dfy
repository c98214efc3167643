/** Option and Result, the two failure-aware wrappers the model uses. */
module Wrappers {

  /** `None` stands for a JavaScript `null` or `undefined`. */
  datatype Option<+T> = None | Some(value: T)

  /** The outcome of a callback that either succeeds or reports an `Error`. */
  datatype Result<+R, +E> = Success(value: R) | Failure(error: E)
}
