/** Option and Result, used where the worker's JavaScript returns null/undefined or throws. */
module Wrappers {

  datatype Option<+T> = None | Some(value: T)

  datatype Result<+R, +E> = Success(value: R) | Failure(error: E)
}
