/** Option and Result, used for JavaScript's nullable values and for the
    outcome of a remote call. */
module Wrappers {

  datatype Option<+T> = None | Some(value: T)

  datatype Result<+R, +E> = Success(value: R) | Failure(error: E)
}
