/** Option, Result and Outcome: the error returns of the crate (`Option`, `Result<T>`, `Result<()>`). */
module Wrappers {

  datatype Option<T> = None | Some(value: T)

  datatype Result<T, E> = Ok(value: T) | Err(error: E)

  /** A `Result<()>`: success carries nothing. */
  datatype Outcome<E> = Pass | Fail(error: E)
}
