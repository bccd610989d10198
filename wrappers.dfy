/** Optional values and success/failure results, used by every other module. */
module Wrappers {

  datatype Option<+T> = None | Some(value: T)

  datatype Result<+R, +E> = Success(value: R) | Failure(error: E)

  /** A result that carries no value, only a possible error (Rust's `Result<()>`). */
  datatype Outcome<+E> = Pass | Fail(error: E)
}
