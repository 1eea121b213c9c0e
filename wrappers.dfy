/** Optional values and call outcomes shared by every module of the model. */
module Wrappers {

  /** A value that may be absent: JavaScript's `undefined`/`null`. */
  datatype Option<+T> = None | Some(value: T) {
    function GetOr(default: T): T {
      match this
      case Some(v) => v
      case None => default
    }
  }

  /** The outcome of a call into code outside the model (a backend query, a Stripe list, ...). */
  datatype Result<+T> = Ok(value: T) | Err(message: string)

  /** A numeric form field: an HTML number input yields either the empty string or a number. */
  datatype Input<+T> = Blank | Entered(value: T) {
    /** The entered number, or `default` for a blank field (`parseFloat(field) || 0` when `default` is 0). */
    function GetOr(default: T): T {
      match this
      case Entered(v) => v
      case Blank => default
    }
  }
}
