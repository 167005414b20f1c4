/** Failure-carrying return values standing in for the exceptions the Java code throws. */
module Wrappers {

  datatype Option<+T> = None | Some(value: T)

  /** A value, or the reason the Java operation threw instead of returning one. */
  datatype Result<+T, +E> = Success(value: T) | Failure(error: E)

  /** The outcome of a Java `void` operation that may throw. */
  datatype Outcome<+E> = Pass | Fail(error: E)
}
