/** Optional values and success/failure results: the shapes in which the
    repository reports "no such record" and its validation errors. */
module Outcomes {

  datatype Option<+T> = None | Some(value: T)

  /** A result carrying a value on success. */
  datatype Result<+R, +E> = Success(value: R) | Failure(error: E)

  /** A result carrying nothing on success (an operation that only throws or returns). */
  datatype Outcome<+E> = Pass | Fail(error: E)
}
