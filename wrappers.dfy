/** Failure-carrying wrappers used by the plugin model. */
module Wrappers {

  /** An optional value: an environment variable that may be unset. */
  datatype Option<+T> = None | Some(value: T)

  /** A value or the error raised instead of it. */
  datatype Result<+R, +E> = Success(value: R) | Failure(error: E)

  /** Completion of a step that returns nothing: it passes or raises an error. */
  datatype Outcome<+E> = Pass | Fail(error: E)
}
