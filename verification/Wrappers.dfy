/** Option and Result, the failure values the other modules share. */
module Wrappers {

  datatype Option<+T> = None | Some(value: T) {
    function GetOr(default: T): T {
      match this
      case Some(v) => v
      case None => default
    }
  }

  /** The classes of error the modelled code throws. */
  datatype Error =
    | NotFound
    | Validation
    | Conflict
    | Unauthorized
    | LeaseError
    | EvidenceError
    | Constraint

  /** The value a call produces, or the error it throws. */
  datatype Result<+T> = Ok(value: T) | Err(error: Error)
}
