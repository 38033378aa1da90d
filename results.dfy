/** Success/failure wrappers used throughout the model. */
module Results {

  /** A value that may be absent. */
  datatype Option<+T> = None | Some(value: T)

  /** A computed value, or the exception that was raised instead. */
  datatype Result<+T, +E> = Success(value: T) | Failure(error: E)
}
