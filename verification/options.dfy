/** Optional values and success/failure outcomes used throughout the model. */
module Options {

  /** A value that may be absent; `None` stands for JavaScript's `undefined`. */
  datatype Option<+T> = None | Some(value: T)

  /** The outcome of an awaited request: its payload, or the error it rejected with. */
  datatype Result<+T, +E> = Ok(value: T) | Err(error: E)
}
