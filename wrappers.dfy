/** Failure-carrying results: the JavaScript code signals errors by throwing,
    the model returns them as values. */
module Wrappers {

  datatype Option<+T> = None | Some(value: T)

  /** `Err` carries the message of the `Error` the source throws. */
  datatype Result<+T, +E> = Ok(value: T) | Err(error: E)
}
