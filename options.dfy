/** The usual optional-value wrapper, standing for Kotlin's nullable values. */
module Options {
  datatype Option<+T> = None | Some(value: T) {
    /** Kotlin's elvis operator `?:` applied to this value. */
    function GetOr(default: T): T {
      match this
      case Some(v) => v
      case None => default
    }
  }
}
