/** Option and Result, the shapes used for Python's `None` and for operations that raise. */
module Wrappers {

  datatype Option<+T> = None | Some(value: T)

  /** `Failure` stands for the exception an operation raises instead of returning. */
  datatype Result<+R, +E> = Success(value: R) | Failure(error: E)
}
