/** The result type the model uses for operations that may raise. */
module Wrappers {

  /** The outcome of an operation that either produces a value or raises an error. */
  datatype Result<+R, +E> = Success(value: R) | Failure(error: E)
}
