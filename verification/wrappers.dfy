/** Option and Result types shared by the model. */
module Wrappers {

  /** A value that may be absent, such as the disable pin that was never opened. */
  datatype Option<+T> = None | Some(value: T)

  /** Either a value or the error a .NET method would have thrown instead. */
  datatype Result<+T, +E> = Success(value: T) | Failure(error: E)
}
