/** Option for values JavaScript may leave `null` or `undefined`, and Result
    for a computation that either yields a value or throws an `Error` whose
    `message` is carried as a string. */
module Wrappers {

  datatype Option<T> = None | Some(value: T) {

    /** The value when present, `fallback` otherwise. */
    function GetOr(fallback: T): T {
      match this
      case Some(v) => v
      case None => fallback
    }
  }

  datatype Result<T> = Success(value: T) | Failure(message: string)
}
