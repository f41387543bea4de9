/** Option and Result shared by the burned-area model. */
module Wrappers {

  /** A value that may be absent. In this model `None` stands for an IEEE NaN:
      an index whose denominator is zero. */
  datatype Option<+T> = None | Some(value: T)

  /** The outcome of an operation that can fail with an error value. */
  datatype Result<+R, +E> = Success(value: R) | Failure(error: E)
}
