/** The optional-value and result datatypes shared by every module of the model. */
module Wrappers {

  /** A value that may be missing; in the JavaScript source `None` is `undefined`. */
  datatype Option<+T> = None | Some(value: T)

  /** The outcome of an operation that can fail with an error value. */
  datatype Result<+T, +E> = Success(value: T) | Failure(error: E)
}
