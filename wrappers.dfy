/** Option and Result, the two failure-carrying wrappers the model uses:
    `None` plays Python's `None`, `Err` an exception raised by a builtin. */
module Wrappers {

  datatype Option<+T> = None | Some(value: T)

  datatype Result<+T, +E> = Ok(value: T) | Err(error: E)
}
