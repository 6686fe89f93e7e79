/** Optional values and the result of an operation that may fail. */
module Options {

  /** A value that may be missing, in place of a nil result. */
  datatype Option<+T> = None | Some(value: T)

  /** The value of an operation or the error it reported, in place of Go's
      `(value, error)` pair. */
  datatype Result<+T, +E> = Ok(value: T) | Err(error: E)
}
