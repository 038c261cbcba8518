/** Option and Result values standing in for C# null and for thrown exceptions. */
module Wrappers {

  /** A possibly-absent value; `None` plays the part of a C# null reference. */
  datatype Option<+T> = None | Some(value: T)

  /** The outcome of an operation that either returns a value or throws. */
  datatype Result<+T, +E> = Ok(value: T) | Err(error: E)
}
