/** Optional values (C# nullable references) and results (a value or the message of an exception). */
module Wrappers {

  /** A value that may be absent: `None` stands for C#'s `null`. */
  datatype Option<+T> = None | Some(value: T)

  /** The outcome of an operation that either returns a value or throws; `error` is the exception's message. */
  datatype Result<+T, +E> = Success(value: T) | Failure(error: E)
}
