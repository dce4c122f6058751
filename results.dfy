/** Option and Result, the two failure-carrying datatypes the rest of the model uses. */
module Results {

  datatype Option<+T> = None | Some(value: T) {
    /** The value, or the given default when absent (JavaScript's `??`). */
    function GetOr(default: T): T {
      match this
      case Some(v) => v
      case None => default
    }
  }

  /** A computation that either returns a value or throws an error with a message. */
  datatype Result<+R, +E> = Success(value: R) | Failure(error: E)
}
