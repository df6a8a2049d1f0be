/** Failure-carrying values shared by every module of the model. */
module Wrappers {

  /** A value that may be missing (a dictionary lookup, a decode that failed). */
  datatype Option<+T> = None | Some(value: T)

  /** A value or the error that replaced it (a Python exception). */
  datatype Result<+T, +E> = Ok(value: T) | Err(error: E)
}
