/** The optional-value and success-or-failure datatypes the other modules use for
    JavaScript's null/undefined, Python's None and thrown errors. */
module Wrappers {
  datatype Option<+T> = None | Some(value: T)

  datatype Result<+T, +E> = Ok(value: T) | Err(error: E)
}
