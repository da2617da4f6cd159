/** Success/failure and optional values shared by every module of the model. */
module Outcomes {

  /** A value that may be missing: a form field or a POST key that was not sent. */
  datatype Option<+T> = None | Some(value: T)

  /** The outcome of a view or validator that either produces a value or reports an error. */
  datatype Result<+T, +E> = Ok(value: T) | Err(error: E)
}
