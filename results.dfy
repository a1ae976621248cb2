/** Failure-compatible wrappers shared by the two scripts' models. */
module Results {

  datatype Option<T> = None | Some(value: T)

  /** The outcome of an operation that may raise: a value, or the error it raised. */
  datatype Result<T, E> = Ok(value: T) | Err(error: E)
}
