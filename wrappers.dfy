/** Optional values and fallible results, used for the decoder's "no such
    instruction" answer, the last-separator search and ROM loading. */
module Wrappers {

  datatype Option<+T> = None | Some(value: T)

  datatype Result<+T, +E> = Ok(value: T) | Err(error: E)
}
