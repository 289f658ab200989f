/** Option and Result, the two failure-carrying values the model uses. */
module Wrappers {

  /** A JavaScript value that may be `undefined`. */
  datatype Option<+T> = None | Some(value: T)

  /** The outcome of an operation that may throw: its value, or the thrown message. */
  datatype Result<+T> = Success(value: T) | Failure(error: string)
}
