/** Failure-carrying values used where the bot's handlers branch on an
    exception or on a missing value. */
module Wrappers {

  datatype Option<+T> = None | Some(value: T)

  datatype Result<+R, +E> = Success(value: R) | Failure(error: E)

  /** The outcome of a step that yields nothing but may fail. */
  datatype Outcome<+E> = Pass | Fail(error: E)
}
