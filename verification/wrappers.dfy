/** Optional values and results, used for JSON's missing fields and Python's None,
    and for the outcome of a step that can raise. */
module Wrappers {

  datatype Option<+T> = None | Some(value: T)

  datatype Result<+T, +E> = Ok(value: T) | Err(error: E)
}
