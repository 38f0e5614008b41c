/** Result types shared by the models. */
module Wrappers {

  datatype Option<+T> = None | Some(value: T)

  /** A Go pair (value, error) of which exactly one is meaningful. */
  datatype Result<+T, +E> = Success(value: T) | Failure(error: E)
}
