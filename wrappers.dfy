/** Option and Result, the two failure-carrying shapes used throughout the model:
    Option stands for a nullable reference, Result for a call that may throw. */
module Wrappers {

  datatype Option<+T> = None | Some(value: T)

  datatype Result<+R, +E> = Success(value: R) | Failure(error: E)
}
