/** Option and Result values used across the decoders in place of the
    JavaScript `undefined` fields and `{errors: [...]}` early returns. */
module Wrappers {

  datatype Option<+T> = None | Some(value: T)

  datatype Result<+T, +E> = Ok(value: T) | Err(error: E)
}
