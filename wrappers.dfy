/** Option and Result values used for absent fields and for the error paths
    that the TypeScript code reports by throwing. */
module Wrappers {
  datatype Option<+T> = None | Some(value: T)

  datatype Result<+T, +E> = Ok(value: T) | Err(error: E)
}
