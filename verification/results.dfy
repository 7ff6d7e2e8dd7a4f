/** Tagged results used across the model in place of JavaScript's `undefined`/`null` and thrown errors. */
module Results {

  /** A value that may be absent: an unset message field, or a store lookup that found nothing. */
  datatype Option<+T> = None | Some(value: T)

  /** The outcome of an operation that either yields a value or fails with an error. */
  datatype Result<+T, +E> = Ok(value: T) | Err(error: E)
}
