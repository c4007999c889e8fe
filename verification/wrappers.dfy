/** Optional values and success-or-error outcomes used across the grid model. */
module Wrappers {

  /** An optional value: the model's stand-in for a JavaScript property that may be `undefined`. */
  datatype Option<+T> = None | Some(value: T)

  /** The outcome of an operation that either yields a value or throws. */
  datatype Result<+R, +E> = Success(value: R) | Failure(error: E)

  /** The outcome of a check that either passes or fails with an error. */
  datatype Outcome<+E> = Pass | Fail(error: E)
}
