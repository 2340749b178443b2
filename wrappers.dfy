/** Option and Result: the explicit form of the handler's optional query
    parameter and of the collaborators' raised exceptions. */
module Wrappers {

  datatype Option<+T> = None | Some(value: T) {
    /** The carried value, or `default` when there is none. */
    function GetOr(default: T): T {
      match this
      case Some(v) => v
      case None => default
    }
  }

  /** A collaborator call that either returns a value or raises an exception,
      whose `str(e)` text is carried in `error`. */
  datatype Result<+R, +E> = Success(value: R) | Failure(error: E)
}
