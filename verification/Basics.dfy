/** Failure-carrying results shared by every component. */
module Basics {

  datatype Option<+T> = None | Some(value: T)

  /** An operation either answers or is refused with one error; a refusal never changes state. */
  datatype Result<+T, +E> = Ok(value: T) | Err(error: E)
}
