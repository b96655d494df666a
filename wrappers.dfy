/** An optional value and the outcome of an operation that may throw, used across the model. */
module Wrappers {

  /** A value that may be absent: stands for a .NET reference that may be null. */
  datatype Option<+T> = None | Some(value: T)

  /** The outcome of an operation that either completes or throws an exception of kind E. */
  datatype Outcome<+E> = Pass | Fail(error: E)
}
