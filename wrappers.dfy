/** Optional values, the model of a Python `X | None` field or a Java reference that may be
    null, and the outcome of a call that may raise. */
module Wrappers {
  datatype Option<+T> = None | Some(value: T)

  /** A call that returns a value or raises an error carrying a message. */
  datatype Result<+T> = Success(value: T) | Failure(error: string)
}
