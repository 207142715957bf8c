/** Option and Result: the Rust `Option<T>` and `Result<T, E>` used by every module. */
module Wrappers {

  datatype Option<T> = None | Some(value: T)

  datatype Result<T, E> = Ok(value: T) | Err(error: E)
}
