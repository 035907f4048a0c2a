/** Small failure-carrying datatypes shared by the other modules. */
module Common {

  /** A value that may be absent: JavaScript's `null` / `undefined`. */
  datatype Option<+T> = None | Some(value: T)

  /** The outcome of an operation that can throw: a value or an error. */
  datatype Result<+T, +E> = Ok(value: T) | Err(error: E)
}
