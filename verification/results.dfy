/** Failure-carrying return values shared by the model. */
module Results {

  /** A value that may be absent (Python's `None`). */
  datatype Option<+T> = None | Some(value: T)

  /** The result of a computation that either yields a value or raises an error. */
  datatype Result<+T, +E> = Ok(value: T) | Err(error: E)

  /** The result of an operation that only succeeds or raises an error. */
  datatype Outcome<+E> = Pass | Fail(error: E)
}
