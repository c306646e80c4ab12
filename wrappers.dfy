/** Small failure-carrying datatypes shared by every module of the model. */
module Wrappers {

  /** A value that may be absent (Python's `None`). */
  datatype Option<+T> = None | Some(value: T)
  {
    function GetOr(default: T): T
    {
      match this
      case Some(v) => v
      case None => default
    }
  }

  /** The outcome of an operation that may raise (Python's exception path). */
  datatype Result<+T, +E> = Success(value: T) | Failure(error: E)

  /** A key of a request payload: absent, or present with a value (possibly JSON null). */
  datatype Field<+T> = Absent | Present(value: T)
}
