/** Failure-compatible wrappers for the source's nullable values and thrown exceptions. */
module Wrappers {

  /** A nullable value: Kotlin's `T?`. */
  datatype Option<+T> = None | Some(value: T)

  /** A value or the exception that replaced it. */
  datatype Result<+T, +E> = Success(value: T) | Failure(error: E)
}
