/** Failure-carrying results shared by every component of the model. */
module Wrappers {

  /** A value that may be absent (Python's `None`). */
  datatype Option<+T> = None | Some(value: T)

  /** The outcome of an operation that raises in the source: `Err` carries
      the text of the raised exception. */
  datatype Result<+T> = Ok(value: T) | Err(error: string)
}
