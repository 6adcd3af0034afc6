/** Small failure-carrying datatypes shared by the modules of this model. */
module Common {

  datatype Option<+T> = None | Some(value: T)

  /** The outcome of a validation or a request: a value, or the error that stopped it. */
  datatype Result<+T, +E> = Ok(value: T) | Err(error: E)
}
