/** Small optional-value and result datatypes shared by the modules of this model.
    `Option` stands for a Go reference that may be nil; `Result` for a Go `(value, error)` pair. */
module Wrappers {

  datatype Option<+T> = None | Some(value: T) {

    /** The value, or `default` when there is none. */
    function GetOr(default: T): T {
      match this
      case Some(v) => v
      case None => default
    }
  }

  datatype Result<+T, +E> = Success(value: T) | Failure(error: E)
}
