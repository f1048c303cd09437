/** Option and Result, the two failure-carrying shapes used across the model.
    Python's `None` becomes `None`, and every exception the source raises
    becomes an `Err` carrying the kind of exception and its status or message. */
module Wrappers {

  datatype Option<+T> = None | Some(value: T) {
    function GetOr(default: T): T {
      match this
      case Some(v) => v
      case None => default
    }
  }

  /** The exception families the core raises: Python's `ValueError` and
      `TypeError` with their messages, and FastAPI's `HTTPException` with its
      status code. */
  datatype Error = ValueError(message: string) | TypeError(text: string) | HttpError(status: int)

  datatype Result<+T> = Ok(value: T) | Err(error: Error)
}
