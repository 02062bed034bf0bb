/** Optional values and the outcome of an operation that can throw. */
module Wrappers {

  /** A value that may be absent: `None` stands for JavaScript's `null`. */
  datatype Option<+T> = None | Some(value: T)

  /** The outcome of a call that either returns a value or throws an error
      carrying a message. */
  datatype Result<+R, +E> = Success(value: R) | Failure(error: E)
}
