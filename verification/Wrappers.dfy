/** Failure-compatible result types: a nullable column or parameter is an `Option`,
    an operation that throws is a `Result`. */
module Wrappers {

  datatype Option<+T> = None | Some(value: T)

  datatype Result<+R, +E> = Success(value: R) | Failure(error: E)
}
