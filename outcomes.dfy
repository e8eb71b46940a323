/** Optional values and the success-or-error results the layers' operations return. */
module Outcomes {

  /** A value that may be absent, as a Python attribute may be `None`. */
  datatype Option<T> = None | Some(value: T)

  /** The result of an operation that either builds a value or raises an exception. */
  datatype Result<T, E> = Success(value: T) | Failure(error: E)
}
