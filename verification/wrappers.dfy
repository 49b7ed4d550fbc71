/** Failure-carrying datatypes shared by the request pipeline. */
module Wrappers {

  /** An optional value: a JSON key that may be absent. */
  datatype Option<+T> = None | Some(value: T)

  /** The outcome of a step that either yields a value or raises an error. */
  datatype Result<+T, +E> = Ok(value: T) | Err(error: E)
}
