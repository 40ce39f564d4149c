/** Option and Result, the two failure-carrying types the model uses in place of
    JavaScript's `null`/`undefined`/`NaN` and of thrown errors. */
module Wrappers {

  datatype Option<+T> = None | Some(value: T)

  datatype Result<+R, +E> = Success(value: R) | Failure(error: E)
}
