/** Java's nullable references and thrown exceptions, as values. */
module Wrappers {

  /** A Java reference that may be null: `None` is null. */
  datatype Option<+T> = None | Some(value: T)

  /** A call that either returns a value or throws an exception of kind `E`. */
  datatype Result<+T, +E> = Ok(value: T) | Err(error: E)
}
