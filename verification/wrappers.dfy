/** Optional values and the outcome of an operation that may throw. */
module Wrappers {

  datatype Option<+T> = None | Some(value: T)

  /** The outcome of a call that may throw: a JavaScript `Error` is modelled by
      its `message`, which is all that the modelled code ever inspects. */
  datatype Result<+T> = Ok(value: T) | Err(message: string)
}
