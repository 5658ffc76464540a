/** Failure-carrying datatypes shared by every handler of the model. */
module Wrappers {

  /** A value that may be absent; stands for the source's nullable references. */
  datatype Option<+T> = None | Some(value: T)

  /** Either a handler's response or the error it raises. */
  datatype Result<+R, +E> = Success(value: R) | Failure(error: E)
}
