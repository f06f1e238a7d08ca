/** Optional values and results shared by the other modules. */
module Common {

  /** A JSON field that may be absent (null or undefined) or present. */
  datatype Option<+T> = None | Some(value: T)

  /** The outcome of an operation that may throw. */
  datatype Result<+T, +E> = Ok(value: T) | Err(error: E)
}
