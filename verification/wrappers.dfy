/** Optional values and success/failure results, used for nullable cookies
    and optional arguments (`Option`) and for operations that may throw
    (`Result`). */
module Wrappers {

  /** `None` stands for JavaScript's `null` and `undefined` alike. */
  datatype Option<+T> = None | Some(value: T)

  /** `Failure` carries the message of the exception that was thrown. */
  datatype Result<+R, +E> = Success(value: R) | Failure(error: E)
}
