/** Optional values and success/failure results, shared by every module of the client. */
module Wrappers {

  /** A value that may be absent: an unset environment variable, a missing status, `null`. */
  datatype Option<+T> = None | Some(value: T)

  /** The settled state of a promise: it resolved with `value` or rejected with `error`. */
  datatype Result<+T, +E> = Success(value: T) | Failure(error: E)
}
