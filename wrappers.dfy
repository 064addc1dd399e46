/** Failure-carrying values shared by the other modules. */
module Wrappers {

  datatype Option<+T> = None | Some(value: T)

  /** The outcome of a step that either yields a value or aborts with an error. */
  datatype Result<+T, +E> = Ok(value: T) | Err(error: E)
}
