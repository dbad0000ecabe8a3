/** The two failure-carrying values used throughout: a missing value, and a refusal with its reason. */
module Wrappers {
  datatype Option<+T> = None | Some(value: T)

  datatype Result<+T, +E> = Ok(value: T) | Err(error: E)
}
