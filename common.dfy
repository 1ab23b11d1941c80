/** Small shared datatypes. */
module Common {

  /** Python's `None`-or-value, as used for optional arguments and look-ups. */
  datatype Option<T> = None | Some(value: T) {
    function GetOr(default: T): T {
      match this
      case Some(v) => v
      case None => default
    }
  }
}
