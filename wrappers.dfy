/** Option and outcome types shared by every module of the model. */
module Wrappers {

  /** Python's `None` or a value. */
  datatype Option<+T> = None | Some(value: T) {
    function GetOr(default: T): T {
      match this
      case Some(v) => v
      case None => default
    }
  }

  /** The result of a call that either returns a value or raises an exception
      carrying the exception's message (`str(e)`). */
  datatype Outcome<+T> = Returned(value: T) | Raised(message: string)
}
