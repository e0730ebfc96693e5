/** Option and Result values, used where the exporter either has a value or
    reports why it has none. */
module Wrappers {

  datatype Option<+T> = None | Some(value: T)

  datatype Result<+R, +E> = Success(value: R) | Failure(error: E)
}
