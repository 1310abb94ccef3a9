/** Optional values and results with an error, used for the SDK's nullable references
    and its fail-fast entry points. */
module Wrappers {

  /** A value that may be absent (a Kotlin nullable reference). */
  datatype Option<+T> = None | Some(value: T)

  /** Either a value or an error message (a call that may throw). */
  datatype Result<+T, +E> = Success(value: T) | Failure(error: E)
}
