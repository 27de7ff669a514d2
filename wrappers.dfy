/** Option and Result values shared by the modules of this model. */
module Wrappers {

  datatype Option<+T> = None | Some(value: T)

  /** The outcome of an operation that can raise: a value, or the error message it raises with. */
  datatype Result<+T> = Ok(value: T) | Err(message: string)
}
