/** Option and Result: absence and failure as values, in place of Python's
    `None` returns and raised exceptions. */
module Wrappers {

  datatype Option<T> = None | Some(value: T) {
    predicate IsSome() { this.Some? }

    /** `d.get(key, default)` once the lookup has happened. */
    function GetOr(default: T): T {
      match this
      case Some(v) => v
      case None => default
    }
  }

  /** An exception carries its class name and message. */
  datatype Error = Error(kind: string, message: string)

  datatype Result<T> = Ok(value: T) | Err(error: Error) {
    predicate IsOk() { this.Ok? }

    function ToOption(): Option<T> {
      match this
      case Ok(v) => Some(v)
      case Err(_) => None
    }
  }
}
