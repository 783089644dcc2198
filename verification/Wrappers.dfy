/** The two result shapes the model shares: a value that may be absent, and the
    outcome of an operation that can refuse. */
module Wrappers {
  datatype Option<+T> = None | Some(value: T)

  datatype Result<+T, +E> = Ok(value: T) | Err(error: E)
}
