/** Option and Result: the model's stand-ins for Python's `None` and for raised exceptions. */
module Wrappers {

  /** A value that may be missing (Python's `Optional`). */
  datatype Option<+T> = None | Some(value: T)

  /** The outcome of an operation that may raise: `Failure` carries the exception text. */
  datatype Result<+T, +E> = Success(value: T) | Failure(error: E)

  function Min(a: int, b: int): int { if a <= b then a else b }

  function Max(a: int, b: int): int { if a <= b then b else a }
}
