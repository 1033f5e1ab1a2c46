/** Failure-compatible wrappers shared by every module, and the byte type
    used wherever the source handles raw `bytes`. */
module Wrappers {

  /** Python's `Optional[T]`: `None` or a present value. */
  datatype Option<+T> = None | Some(value: T) {
    function GetOr(default: T): T {
      match this
      case Some(v) => v
      case None => default
    }
  }

  /** A value, or the exception a Python call would have raised instead. */
  datatype Result<+T, +E> = Ok(value: T) | Err(error: E)

  /** One octet of a Python `bytes`/`bytearray`. */
  newtype byte = x: int | 0 <= x < 256
}
