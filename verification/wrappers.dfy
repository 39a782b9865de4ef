/**
 Failure-compatible result types shared by the model: `Option` for partial
 operations (the number parser, the first line of a file) and `Result` for
 operations that report a distinguishable error.
 */
module Wrappers {

  datatype Option<+T> = None | Some(value: T)

  datatype Result<+R, +E> = Success(value: R) | Failure(error: E)
}
