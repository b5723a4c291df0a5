/** Option and Result datatypes shared by the modules of this model. */
module Wrappers {

  /** A value that may be absent (JavaScript `undefined`/`null`). */
  datatype Option<+T> = None | Some(value: T)

  /** The outcome of an operation that may throw: its value, or the thrown error's message. */
  datatype Result<+T> = Success(value: T) | Failure(message: string)
}
