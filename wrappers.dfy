/** Absent values and failing operations. */
module Wrappers {

  /** A value that may be missing: an absent document field, a `find` that matched nothing. */
  datatype Option<+T> = None | Some(value: T)

  /** An operation that either yields a value or fails with the message JavaScript would throw. */
  datatype Result<+T> = Success(value: T) | Failure(error: string)
}
