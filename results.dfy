/** Optional values and error-carrying results shared by the models. */
module Results {

  /** A value that may be absent: a missing state entry, a failed lookup. */
  datatype Option<+T> = None | Some(value: T)

  /** The outcome of an operation that either yields a value or fails with an error. */
  datatype Result<+T, +E> = Ok(value: T) | Err(error: E)
}
