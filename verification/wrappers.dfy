/** Option and Result datatypes shared by the capture and trajectory modules. */
module Wrappers {

  /** A value that may be absent, as a pointer coordinate outside the axes is. */
  datatype Option<+T> = None | Some(value: T)

  /** The outcome of an operation that can fail. */
  datatype Result<+R, +E> = Ok(value: R) | Err(error: E)
}
