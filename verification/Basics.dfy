/** Small shared datatypes. */
module Basics {

  /** An optional value, for the program's `None`-able fields. */
  datatype Option<+T> = None | Some(value: T)

  /** A computed value or the reason it was refused. */
  datatype Result<+T, +E> = Ok(value: T) | Err(error: E)
}
