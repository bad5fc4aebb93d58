/** A nullable reference (`Option`) and the outcome of an operation that may throw (`Result`). */
module Wrappers {

  datatype Option<+T> = None | Some(value: T)

  datatype Result<+T, +E> = Ok(value: T) | Err(error: E)
}
