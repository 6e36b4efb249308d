/** Optional values and results with an error, used wherever the client
    can be handed "nothing" or can fail. */
module Wrappers {

  datatype Option<+T> = None | Some(value: T)

  datatype Result<+T, +E> = Ok(value: T) | Err(error: E)
}
