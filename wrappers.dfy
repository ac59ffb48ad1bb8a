/** Failure-compatible result types shared by the modules of this model. */
module Wrappers {

  /** A value that may be absent: Python's `None` is `None` here. */
  datatype Option<+T> = None | Some(value: T)

  /** The outcome of an operation that raises on failure in the source. */
  datatype Result<+R, +E> = Success(value: R) | Failure(error: E)
}
