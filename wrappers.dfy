/** Option and Result values shared by the whole model. A Python exception or a
    TypeScript throw becomes an `Err` carrying the error's kind and message. */
module Wrappers {

  datatype Option<+T> = None | Some(value: T) {
    function GetOr(default: T): T {
      match this
      case Some(v) => v
      case None => default
    }
  }

  /** The kinds of exception the modelled code raises or catches. */
  datatype ErrKind = ValueError | NotImplementedError | TypeError | AttributeError | ConfigErrorKind | JsError

  datatype Error = Error(kind: ErrKind, message: string)

  datatype Result<+T> = Ok(value: T) | Err(error: Error)

  function Raise<T>(kind: ErrKind, message: string): Result<T> {
    Err(Error(kind, message))
  }
}
