/** Option and Result values, standing in for java.util.Optional and for the
    exceptions the cart service lets through to its callers. */
module Wrappers {

  datatype Option<+T> = None | Some(value: T)

  datatype Result<+T, +E> = Success(value: T) | Failure(error: E)
}
