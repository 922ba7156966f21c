/** Option and Result: the model's stand-ins for Python's None and for exceptions. */
module Wrappers {

  datatype Option<+T> = None | Some(value: T)

  /** `Failure` carries what the Python code would have raised. */
  datatype Result<+R, +E> = Success(value: R) | Failure(error: E)
}
