/** An optional value: a request-body field that may be absent (`undefined`). */
module Wrappers {

  datatype Option<+T> = None | Some(value: T) {

    /** The value, or `default` when absent. */
    function GetOr(default: T): T {
      match this
      case Some(v) => v
      case None => default
    }
  }
}

/** The HTTP replies the route handlers send, as values. */
module Http {

  /** A refused request: the status code and the `msg` the handler sends with it. */
  datatype Failure =
    | Unauthorized(msg: string)
    | Forbidden(msg: string)
    | NotFound(msg: string)
    | BadRequest(msg: string)
    | ServerError  // "Server Error": a store or schema-validation failure

  {
    /** The HTTP status code of the reply. */
    function Code(): nat {
      match this
      case Unauthorized(_) => 401
      case Forbidden(_) => 403
      case NotFound(_) => 404
      case BadRequest(_) => 400
      case ServerError => 500
    }
  }

  /** A handler's reply: a JSON body on success, or a failure. */
  datatype Reply<+T> = Ok(value: T) | Fail(failure: Failure)
}
