/** Option and Result, shared by every module of the model. */
module Wrappers {

  datatype Option<+T> = None | Some(value: T)

  /** An error return: the Go functions that answer `(value, error)`. */
  datatype Result<+T> = Success(value: T) | Failure(error: string)
}
