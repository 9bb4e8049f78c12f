/** Option and Result values shared by the player and search models. */
module Wrappers {

  /** A value that may be missing: PHP's NULL. */
  datatype Option<+T> = None | Some(value: T)

  /** The outcome of an operation that can throw. */
  datatype Result<+T, +E> = Ok(value: T) | Err(error: E)
}
