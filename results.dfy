/** Failure-carrying values shared by the modules of this model. */
module Results {

  datatype Option<+T> = None | Some(value: T)

  /** A Go `(value, error)` pair: either a value or an error. */
  datatype Result<+T, +E> = Ok(value: T) | Err(error: E)
}
