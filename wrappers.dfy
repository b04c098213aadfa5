/** The Option, Result and Outcome types shared by every module of the model. */
module Wrappers {

  /** A value that may be absent (TypeScript's `T | undefined` and `T | null`). */
  datatype Option<+T> = None | Some(value: T)

  /** The outcome of an operation that either yields a value or throws an error. */
  datatype Result<+T, +E> = Success(value: T) | Failure(error: E)

  /** The outcome of an operation that yields nothing or throws an error (`Promise<void>`). */
  datatype Outcome<+E> = Pass | Fail(error: E)
}
