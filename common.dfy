/** Small value wrappers shared by the page models. */
module Common {

  /** A value that may be absent: JavaScript's `null` / `undefined`. */
  datatype Option<T> = None | Some(value: T) {
    /** `x || fallback` on a possibly missing value. */
    function GetOr(default: T): T {
      match this
      case Some(v) => v
      case None => default
    }
  }

  /** The outcome of a form step that either produces a value or an error message. */
  datatype Result<T> = Ok(value: T) | Err(message: string)
}
