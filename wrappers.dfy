/** Failure-carrying values: Python's `None` and the exceptions that the audio source catches. */
module Wrappers {

  datatype Option<+T> = None | Some(value: T)

  datatype Result<+T, +E> = Ok(value: T) | Err(error: E)
}
