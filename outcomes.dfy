/** Results of the three services' request handlers.
  * A handler either answers with a value or throws; what it throws is a `Failure`. */
module Outcomes {

  datatype Option<+T> = None | Some(value: T) {
    /** The value, or `default` when there is none (JavaScript's `x || default` on a present/absent value). */
    function GetOr(default: T): T {
      match this
      case Some(v) => v
      case None => default
    }
  }

  datatype Result<+T, +E> = Ok(value: T) | Err(error: E)

  /** How a handler ends when it throws. */
  datatype Failure =
      /** The handler set `res.status(status)` itself and threw `new Error(message)`. */
    | Http(status: nat, message: string)
      /** A Mongoose validator refused a document; the handler set no status. */
    | Schema(message: string)
      /** A JavaScript runtime error (a TypeError) thrown by the handler's own code. */
    | Crash(message: string)

  /** What a handler answers: a value, or a failure. */
  type Reply<T> = Result<T, Failure>

  const BAD_REQUEST: nat := 400
  const NOT_FOUND: nat := 404
}
