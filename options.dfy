/** Optional values and results with an error, shared by the other modules. */
module Options {

  /** A value that may be absent (Python's `None` default). */
  datatype Option<+T> = None | Some(value: T)

  /** The outcome of an operation that may raise an error instead of returning. */
  datatype Result<+T, +E> = Ok(value: T) | Err(error: E)
}
