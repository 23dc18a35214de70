/** Option, Result and Fault, shared by the other modules. */
module Wrappers {
  datatype Option<+T> = None | Some(value: T)

  datatype Result<+T, +E> = Ok(value: T) | Err(error: E)

  /** How an operation fails that reports errors and can also panic. */
  datatype Fault = Reported(error: string) | Panic
}
