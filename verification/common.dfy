/**
 * Shared wrappers: an optional value (JavaScript `null`/`undefined` versus a
 * value), the error replies the HTTP handlers send, and a result that is either
 * a value or one of those errors, and the clock unit both the server and the
 * dashboard count in.
 */
module Common {

  /** One minute of `Date.now()` time, in milliseconds. */
  const MinuteMs: int := 60000

  /** A value that may be absent (`null` or `undefined` in the source). */
  datatype Option<+T> = None | Some(value: T) {

    /** The value, or `default` when absent (the source's `x || default`). */
    function GetOr(default: T): T
    {
      match this
      case Some(v) => v
      case None => default
    }
  }

  /** The error replies of the HTTP API, one per status code used. */
  datatype HttpError =
    | BadRequest               // 400: missing field, invalid value, already signed
    | Unauthorized             // 401: missing, invalid or expired token; wrong credentials
    | Forbidden                // 403: right kind of request, wrong principal
    | NotFound                 // 404: referenced entity absent
    | Conflict                 // 409: account already exists
    | TooManyRequests(waitMinutes: int)  // 429: login locked out
  {
    /** The HTTP status code the handler sends for this error. */
    function Code(): int
    {
      match this
      case BadRequest => 400
      case Unauthorized => 401
      case Forbidden => 403
      case NotFound => 404
      case Conflict => 409
      case TooManyRequests(_) => 429
    }
  }

  /** Either a successful value or the error reply a handler returns early with. */
  datatype Result<+T> = Ok(value: T) | Err(error: HttpError)
}
