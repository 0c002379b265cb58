/** Optional values and results shared by every module of the model. */
module Wrappers {

  /** `None` stands for JavaScript's `undefined`/`null`/absent field. */
  datatype Option<+T> = None | Some(value: T)

  /** A returned value, or the exception the source throws instead. */
  datatype Result<+T, +E> = Success(value: T) | Failure(error: E)
}
