/** Option and Result, the two wrapper datatypes the model uses. */
module Wrappers {

  datatype Option<+T> = None | Some(value: T)

  /** The `Result<T, E>` a Rust function returns: `Ok(v)` or `Err(e)`. */
  datatype Result<+T, +E> = Ok(value: T) | Err(error: E)
}
