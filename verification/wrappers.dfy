/** Failure-carrying result types shared by every module of the model. */
module Wrappers {

  /** A value that may be absent, as Rust's `Option<T>`. */
  datatype Option<+T> = None | Some(value: T)

  /** The outcome of a contract call, as Rust's `Result<T, E>`. */
  datatype Result<+T, +E> = Success(value: T) | Failure(error: E)
}
