/** Optional values and results with an error, used for Python's `None` and raised exceptions. */
module Wrappers {

  datatype Option<T> = None | Some(value: T)

  datatype Result<T, E> = Success(value: T) | Failure(error: E)

  /** The outcome of a call that returns nothing or raises. */
  datatype Outcome<E> = Pass | Fail(error: E)
}
