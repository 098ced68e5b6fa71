/** Option, Result and Outcome values used across the model. */
module Wrappers {

  /** A value that may be absent; PHP's `null` becomes `None`. */
  datatype Option<+T> = None | Some(value: T)

  /** The value of a call that either returns `value` or throws `error`. */
  datatype Result<+T, +E> = Ok(value: T) | Err(error: E)

  /** The outcome of a `void` call: it returns normally or throws `error`. */
  datatype Outcome<+E> = Pass | Fail(error: E)
}
