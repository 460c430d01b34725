/** Option and Result datatypes: the source's `null` returns become `Option`,
    its thrown errors become `Result`. */
module Wrappers {

  datatype Option<+T> = None | Some(value: T)

  datatype Result<+R, +E> = Success(value: R) | Failure(error: E)
}
