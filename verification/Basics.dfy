/** Shared result types. */
module Basics {
  datatype Option<+T> = None | Some(value: T)

  /** The error classes of internal/apperror that the file operations return. */
  datatype Error =
    | Invalid | Unauthorized | Forbidden | NotFound | Conflict | StaleVersion | Internal | Unavailable

  datatype Result<+T> = Ok(value: T) | Err(error: Error)
}
