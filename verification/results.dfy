/** Failure-carrying values shared by every module of the model. */
module Results {

  /** The outcome of an operation that either produces a value or fails with an error. */
  datatype Result<+T, +E> = Ok(value: T) | Err(error: E)

  /** An optional value: an argument the caller may omit, or a field not yet set. */
  datatype Option<+T> = None | Some(value: T)
}
