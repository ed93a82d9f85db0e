/** Optional values and results shared by the model. */
module Wrappers {

  /** An optional value; also stands for Go's nil (None) versus a present value. */
  datatype Option<+T> = None | Some(value: T)

  /** A value or an error, as returned by the library calls the renderer makes. */
  datatype Result<+R, +E> = Success(value: R) | Failure(error: E)
}
