/** Optional values and fallible results, shared by every module of the model. */
module Wrappers {

  /** A JavaScript value that may be `null` or `undefined` (None) or present (Some). */
  datatype Option<+T> = None | Some(value: T)

  /** The outcome of an awaited call that may throw. */
  datatype Result<+R, +E> = Success(value: R) | Failure(error: E)
}
