/** Option and Result wrappers used throughout the model. */
module Wrappers {

  /** An optional value: `None` stands for "no value", e.g. a parse that failed. */
  datatype Option<+T> = None | Some(value: T)

  /** Either a value or an error: the model's stand-in for a Python call that may raise. */
  datatype Result<+R, +E> = Success(value: R) | Failure(error: E)
}
