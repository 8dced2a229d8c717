/** Option and Result, used for the values that may be missing and the
    operations that raise in the extractor. */
module Wrappers {

  datatype Option<+T> = None | Some(value: T)

  datatype Result<+T, +E> = Ok(value: T) | Err(error: E)
}
