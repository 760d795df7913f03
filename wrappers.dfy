/** Wrappers: Rust's `Option` and the error results that
    replace the source's `panic!` and `unwrap` failures. */
module Wrappers {
  datatype Option<T> = None | Some(value: T)

  datatype Result<T, E> = Ok(value: T) | Err(error: E)
}
