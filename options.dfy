/** Small result-carrying datatypes shared by the other modules. */
module Options {

  datatype Option<+T> = None | Some(value: T) {
    function GetOr(default: T): T {
      match this
      case Some(v) => v
      case None => default
    }
  }

  /** How a JavaScript evaluation ends: with a value, or by throwing. */
  datatype Completion<+T> = Normal(value: T) | Throw
}
