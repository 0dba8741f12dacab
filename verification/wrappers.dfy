/** Optional values and error-carrying results shared by the other modules. */
module Wrappers {

  /** A value that may be absent; Python's `None` and C++'s "not found". */
  datatype Option<+T> = None | Some(value: T)

  /** The value of a call that may fail with an error of type E. */
  datatype Result<+T, +E> = Success(value: T) | Failure(error: E)
}
