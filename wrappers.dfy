/** Option and Result, the two failure-carrying wrappers the rest of the model uses. */
module Wrappers {

  /** A possibly absent value: Ruby's nil is `None`. */
  datatype Option<+T> = None | Some(value: T)

  /** The outcome of a step that may raise: `Err` carries what was raised. */
  datatype Result<+T, +E> = Ok(value: T) | Err(error: E)
}
