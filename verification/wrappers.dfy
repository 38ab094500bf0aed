/** Optional values and results with an error, used wherever the source may find nothing or throw. */
module Wrappers {

  /** A value that may be absent (a JavaScript `undefined` or `null` field). */
  datatype Option<+T> = None | Some(value: T)

  /** Either a value or the error that the source would have thrown. */
  datatype Result<+R, +E> = Success(value: R) | Failure(error: E)
}
