/** Wrappers for a value that may be null and for a value that may be a thrown error. */
module Wrappers {

  /** A value that JavaScript may hold as `null`. */
  datatype Option<+T> = None | Some(value: T)

  /** The value of an expression that either returns or throws an `Error` with a message. */
  datatype Result<+R> = Success(value: R) | Failure(error: string)
}
