/** Option and Result wrappers shared by the SQL-fragment builders. */
module Wrappers {

  /** A value that may be absent: an optional filter key, or `undefined`. */
  datatype Option<T> = None | Some(value: T)

  /** The one error the builders raise: the application's BadRequestError, with its message. */
  datatype Error = BadRequest(message: string)

  /** Either a built value or the error thrown instead of it. */
  datatype Result<T> = Ok(value: T) | Err(error: Error)
}
