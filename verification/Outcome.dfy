/** A computation that either returns a value or stops with an error, as a raised exception does. */
module Outcome {

  datatype Outcome<+T, +E> = Ok(value: T) | Err(error: E)

  datatype Option<+T> = None | Some(value: T)
}
