/** Option and Result, the two failure-carrying shapes used throughout the model. */
module Wrappers {

  datatype Option<+T> = None | Some(value: T)

  /** `Success` carries a value, `Failure` the text of the error the source would return or raise. */
  datatype Result<+R, +E> = Success(value: R) | Failure(error: E)
}
