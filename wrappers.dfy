/**
 * Optional values and results with an error, shared by the modules of the
 * model.
 */
module Wrappers {

  datatype Option<T> = None | Some(value: T)

  datatype Result<T, E> = Ok(value: T) | Err(error: E)
}
