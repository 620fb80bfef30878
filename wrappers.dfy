/** Option and Result values shared by the generator and the store. */
module Wrappers {

  /** Python's `None` or a present value. */
  datatype Option<+T> = None | Some(value: T)

  /** A value, or the exception the Python code raises instead of returning. */
  datatype Result<+T, +E> = Success(value: T) | Failure(error: E)
}
