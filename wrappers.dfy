/** Failure-carrying datatypes shared by the model: the Rust `Option`, `Result` and
    `Result<(), E>` shapes. */
module Wrappers {

  datatype Option<+T> = None | Some(value: T)

  datatype Result<+T, +E> = Ok(value: T) | Err(error: E)

  /** `Result<(), E>`: an operation run for its effect that either passes or fails. */
  datatype Outcome<+E> = Pass | Fail(error: E)
}
