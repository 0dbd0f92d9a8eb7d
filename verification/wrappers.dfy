/** Failure-carrying datatypes used to model JavaScript values that may be
    absent (`undefined`) and operations that may reject. */
module Wrappers {

  /** A value that may be absent, as a request field or a parse result. */
  datatype Option<+T> = None | Some(value: T)

  /** The outcome of an operation that may reject with an error. */
  datatype Result<+R, +E> = Success(value: R) | Failure(error: E)
}
