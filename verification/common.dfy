/** Failure-carrying values shared by every module of the model. */
module Common {

  /** A value that may be absent: Python's `None` or a present value. */
  datatype Option<T> = None | Some(value: T)

  /** The outcome of an operation that may raise: a value, or the error it raises. */
  datatype Result<T, E> = Ok(value: T) | Err(error: E)

  function Min(a: int, b: int): int { if a <= b then a else b }

  function Max(a: int, b: int): int { if a <= b then b else a }
}
