/** Option and Result, the two sum types the pipeline's Rust code uses for
    "maybe a value" (match_and_decode) and "a value or an error" (decode, output). */
module Wrappers {

  datatype Option<+T> = None | Some(value: T)

  datatype Result<+T, +E> = Ok(value: T) | Err(error: E)
}
