/** Option and Result values, standing in for Rust's Option and for the panics
    with which the build script reports a configuration error. */
module Wrappers {

  datatype Option<+T> = None | Some(value: T)

  datatype Result<+R, +E> = Success(value: R) | Failure(error: E)
}
