/** Failure-compatible result types shared by every module of the model.
    A Python exception that a caller can observe becomes a `Failure`. */
module Wrappers {

  datatype Option<+T> = None | Some(value: T) {
    function GetOr(default: T): T {
      match this
      case Some(v) => v
      case None => default
    }
  }

  datatype Result<+T, +E> = Success(value: T) | Failure(error: E)

  /** An exception raised by an external collaborator; its message is not modelled. */
  datatype Raised = Raised
}
