/** Optional values and decode outcomes shared by the camera and decoder modules. */
module Wrappers {

  /** A value that may be absent (Python's `None`). */
  datatype Option<+T> = None | Some(value: T)

  /** The outcome of decoding a datagram: a value, or the reason it was dropped. */
  datatype Result<+T, +E> = Ok(value: T) | Err(error: E)
}
