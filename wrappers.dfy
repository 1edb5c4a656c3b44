/** Small value wrappers shared by every module of the model. */
module Wrappers {

  /** Python's `Optional[...]`: a nullable value. */
  datatype Option<T> = None | Some(value: T) {

    /** The value, or `default` when there is none. */
    function GetOr(default: T): T
    {
      if Some? then value else default
    }
  }

  /** One field of a partial-update body: absent from the request (`exclude_unset`
      drops it), or sent with a value. */
  datatype Patch<T> = Unset | Set(value: T)
}

/** The HTTP outcome of a handler: a value, or the status code of an `HTTPException`. */
module Http {

  datatype Error =
    | BadRequest                           // 400: uniqueness violation or wrong tenant in the body
    | Unauthorized(bearerChallenge: bool)  // 401: with or without the `WWW-Authenticate: Bearer` header
    | Forbidden                            // 403: role or tenant check failed
    | NotFound                             // 404: a referenced record does not exist
    | ServerError                          // 500: the commit violated a database constraint
  {
    function Status(): int
    {
      match this
      case BadRequest => 400
      case Unauthorized(_) => 401
      case Forbidden => 403
      case NotFound => 404
      case ServerError => 500
    }
  }

  datatype Result<T> = Ok(value: T) | Err(error: Error)
}
