/** Option and Result, the two wrapper types of the Rust source (`Option<T>`,
    `Result<T, E>`), with just the projections the model uses. */
module Wrappers {

  datatype Option<+T> = None | Some(value: T)

  datatype Result<+T, +E> = Ok(value: T) | Err(error: E)
}
