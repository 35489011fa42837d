/** Option and Result, the two failure-carrying shapes the rest of the model uses. */
module Wrappers {

  /** A value that may be absent: JavaScript's `undefined`/`null`/`NaN` results. */
  datatype Option<+T> = None | Some(value: T)

  /** The outcome of a decoding step: a value, or the reason there is none. */
  datatype Result<+T, +E> = Ok(value: T) | Err(error: E)
}
