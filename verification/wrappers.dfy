/** Option and Result: the "missing value" and "error return" shapes shared by every module. */
module Wrappers {

  datatype Option<+T> = None | Some(value: T) {
    function GetOr(default: T): T {
      match this
      case Some(v) => v
      case None => default
    }
  }

  datatype Result<+R, +E> = Success(value: R) | Failure(error: E)

  /** An HTTP error response (FastAPI's `HTTPException`): the status code and the detail text. */
  datatype HttpError = HttpError(status: int, detail: string)
}
