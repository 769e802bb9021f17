/** Optional values and results that carry either a value or an error:
    Python's `None` and raised exceptions, made explicit. */
module Wrappers {

  datatype Option<+T> = None | Some(value: T)

  datatype Result<+T, +E> = Ok(value: T) | Err(error: E)
}
