/** Optional values and results with an error message, used by every layer
    in place of JavaScript's null and thrown exceptions. */
module Wrappers {

  datatype Option<+T> = None | Some(value: T)

  /** The outcome of an operation that either returns a value or throws an
      error whose message is `error`. */
  datatype Result<+R> = Success(value: R) | Failure(error: string)
}
