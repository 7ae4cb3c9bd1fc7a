/** Option and Result, for absent JSON values and for the errors the
    component catches instead of propagating. */
module Wrappers {

  datatype Option<+T> = None | Some(value: T)

  datatype Result<+R, +E> = Success(value: R) | Failure(error: E)
}
