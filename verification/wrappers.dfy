/** Option and Result types shared by the driver model. */
module Wrappers {

  /** An optional value. */
  datatype Option<T> = None | Some(value: T)

  /** Either a value or the error that stopped an operation. */
  datatype Result<T, E> = Success(value: T) | Failure(error: E)
}
