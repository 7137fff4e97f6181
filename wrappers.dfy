/** Option and Result values used where the original signals absence or raises an exception. */
module Wrappers {

  datatype Option<+T> = None | Some(value: T)

  /** `Failure` stands for an exception the original raises; `Success` for a normal return. */
  datatype Result<+R, +E> = Success(value: R) | Failure(error: E)
}
