/** Optional values and success-or-error results used across the model. */
module Results {

  /** An optional value, such as a pattern's absent replacement regex. */
  datatype Option<T> = None | Some(value: T)

  /** The outcome of an operation that can fail with an error of type E. */
  datatype Result<T, E> = Ok(value: T) | Err(error: E)
}
