/** Option, Result and Outcome wrappers used across the model. */
module Wrappers {

  datatype Option<+T> = None | Some(value: T)

  datatype Result<+T, +E> = Ok(value: T) | Err(error: E)

  /** The outcome of an operation that either completes or throws `error`. */
  datatype Outcome<+E> = Pass | Fail(error: E)
}
