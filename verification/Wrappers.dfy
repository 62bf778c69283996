/** Values shared by the other modules. */
module Wrappers {
  datatype Option<+T> = None | Some(value: T)

  datatype Result<+T, +E> = Ok(value: T) | Err(error: E)

  /** A setting that is not positive is replaced by its default. */
  function Positive(configured: int, default: int): int {
    if configured <= 0 then default else configured
  }

  /** Fate of a remote write: landed and acknowledged, landed but reported as an error, not landed. */
  datatype Outcome = Applied | Lost | Rejected
}
