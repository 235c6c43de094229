/** Failure-carrying result types shared by the other modules. */
module Wrappers {

  datatype Option<T> = None | Some(value: T)

  /** The outcome of an operation that may raise: a value, or the error it raises. */
  datatype Result<T, E> = Success(value: T) | Failure(error: E)
}
