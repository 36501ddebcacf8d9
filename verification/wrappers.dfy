/** Failure-carrying datatypes used in place of null pointers and C++ exceptions. */
module Wrappers {

  /** A value that may be absent; stands for a pointer that may be null. */
  datatype Option<+T> = None | Some(value: T)

  /** Either a computed value or the error an operation raised. */
  datatype Result<+R, +E> = Success(value: R) | Failure(error: E)
}
