/** Optional and fallible values shared by the pages of the client. */
module Wrappers {

  /** `None` stands for JavaScript's `undefined`/`null` wherever a value may be missing. */
  datatype Option<+T> = None | Some(value: T)

  /** The outcome of an operation that either yields a value or fails with an error. */
  datatype Result<+R, +E> = Success(value: R) | Failure(error: E)
}
