/** Option and Result, plus the HTTP error that the web framework turns into a
    response (FastAPI's HTTPException: a status code and a detail text). */
module Wrappers {

  datatype Option<T> = None | Some(value: T)

  datatype Result<T, E> = Ok(value: T) | Err(error: E)

  datatype HttpError = HttpError(status: int, detail: string)
}
