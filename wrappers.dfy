/** The optional value Python expresses with `None`. */
module Wrappers {
  datatype Option<T> = None | Some(value: T)

  /** A computation that either gives a value or raises. */
  datatype Result<T> = Ok(value: T) | Raises(error: string)
}
