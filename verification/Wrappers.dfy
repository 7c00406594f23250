/** The failure-carrying datatypes shared by every component. */
module Wrappers {

  /** A value that may be absent: nil, or a missing map entry. */
  datatype Option<+T> = None | Some(value: T)

  /** A returned (value, error) pair, of which exactly one is meaningful. */
  datatype Result<+T, +E> = Ok(value: T) | Err(error: E)
}
