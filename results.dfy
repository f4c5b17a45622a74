/** Failure-carrying values shared by every module: Option for fields a
    schema marks optional, Result for the outcome of a parse or a store call. */
module Results {

  datatype Option<+T> = None | Some(value: T) {
    /** The value, or `default` when the field is absent */
    function GetOr(default: T): T {
      match this
      case Some(v) => v
      case None => default
    }
  }

  datatype Result<+T, +E> = Success(value: T) | Failure(error: E)
}
