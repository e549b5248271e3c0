/** Option and Result values for the model's absent values and error returns. */
module Wrappers {

  /** A value that may be absent; Python's `None`. */
  datatype Option<+T> = None | Some(value: T)

  /** A value or the error that replaced it. */
  datatype Result<+T, +E> = Success(value: T) | Failure(error: E)
}
