/** Optional values and results with an error, used for the source's exceptions. */
module Results {

  datatype Option<+T> = None | Some(value: T)

  /** The outcome of an operation that returns a value or raises an error. */
  datatype Result<+T, +E> = Ok(value: T) | Err(error: E)

  /** The outcome of an operation that changes state and may raise an error. */
  datatype Outcome<+E> = Pass | Fail(error: E)
}
