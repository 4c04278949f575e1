/** Failure-carrying values shared by the whole model. */
module Results {

  /** A value that may be missing, as Python's `None`. */
  datatype Option<+T> = None | Some(value: T)

  /** The outcome of a step that either produces a value or raises with a cause. */
  datatype Result<+T, +E> = Ok(value: T) | Err(error: E)
}
