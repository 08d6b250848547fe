/** Option and Result, the two failure-carrying datatypes the model uses. */
module Wrappers {

  /** `None` stands for Python's `None`; `Some(v)` for a present value. */
  datatype Option<+T> = None | Some(value: T)

  /** `Failure(e)` stands for an exception that leaves the operation. */
  datatype Result<+R, +E> = Success(value: R) | Failure(error: E)
}
