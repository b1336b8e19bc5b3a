/** Values that stand for C#'s nullable references and thrown exceptions. */
module Outcomes {

  /** A nullable reference: `None` is C#'s `null`. */
  datatype Option<+T> = None | Some(value: T) {

    /** C#'s `x ?? default`. */
    function GetOr(default: T): T {
      match this
      case Some(v) => v
      case None => default
    }
  }

  /** The exceptions the modelled code can throw. */
  datatype Exception =
    | InvalidOperation(message: string)  // thrown by the service when no client exists after the gate
    | ArgumentOutOfRange                 // `Artists[0]` on an empty artist list

  /** A call that either returns a value or throws. */
  datatype Result<+T> = Ok(value: T) | Throws(error: Exception)
}
