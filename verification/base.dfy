/** Option and Result values shared by every module of the model. */
module Base {

  /** An absent value (JavaScript `undefined`/`null`) or a present one. */
  datatype Option<+T> = None | Some(value: T) {
    function GetOr(default: T): T {
      match this
      case Some(v) => v
      case None => default
    }
  }

  /** The outcome of a validation: a value, or the reason it was refused. */
  datatype Result<+R, +E> = Ok(value: R) | Err(error: E)
}
