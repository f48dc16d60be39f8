/** Optional values (a JSON key that may be absent, a JavaScript `null`) and
    results that are either a value or an error. */
module Wrappers {

  datatype Option<+T> = None | Some(value: T)

  datatype Result<+T, +E> = Ok(value: T) | Err(error: E)
}
