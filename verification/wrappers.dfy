/** The Option datatype used for JavaScript's nullable values. */
module Wrappers {

  /** `None` stands for `null` or `undefined`. */
  datatype Option<+T> = None | Some(value: T) {

    /** The encapsulated value, or `default` when there is none. */
    function GetOr(default: T): T {
      match this
      case Some(v) => v
      case None => default
    }
  }
}
