/** Failure-carrying wrappers used for JavaScript's `null` results and thrown errors. */
module Wrappers {

  /** A value or nothing: the source's `x || null` and `find(...)` results. */
  datatype Option<+T> = None | Some(value: T)

  /** A value or an error: an operation that either returns or throws. */
  datatype Result<+T, +E> = Success(value: T) | Failure(error: E)
}
