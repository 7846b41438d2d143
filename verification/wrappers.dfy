/** Failure-carrying values shared by the controller model. */
module Wrappers {

  /** A value that may be absent; stands for a nil pointer or an absent map entry. */
  datatype Option<+T> = None | Some(value: T)

  /** Either a value or the error that replaced it, as a Go `(value, error)` pair does. */
  datatype Result<+T, +E> = Ok(value: T) | Err(error: E)
}
