/** Failure-carrying values: the model's stand-in for C# null references and exceptions. */
module Wrappers {

  /** A value that may be absent (a C# null). */
  datatype Option<+T> = None | Some(value: T)

  /** The outcome of an operation that returns a value or raises an exception. */
  datatype Result<+R, +E> = Success(value: R) | Failure(error: E)

  /** The outcome of an operation that returns nothing or raises an exception. */
  datatype Outcome<+E> = Pass | Fail(error: E)
}
