/** Option and the JavaScript completion of an expression (a value or a thrown error). */
module Wrappers {

  /** A JavaScript value that may be `null` or `undefined` (None) or present (Some). */
  datatype Option<+T> = None | Some(value: T) {
    /** The `??` operator: the value when present, otherwise the default. */
    function GetOr(default: T): T {
      match this
      case Some(v) => v
      case None => default
    }
  }

  /** How a JavaScript computation ends: normally with a value, or by throwing. */
  datatype Completion<+T> = Normal(value: T) | Throw(message: string)
}
