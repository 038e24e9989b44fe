/** Optional values and success/failure outcomes: the model's stand-ins for
    `undefined`/`null` and for rejected promises. */
module Wrappers {

  datatype Option<+T> = None | Some(value: T)

  datatype Result<+R, +E> = Ok(value: R) | Err(error: E)
}
