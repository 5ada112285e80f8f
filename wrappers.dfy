/** The optional value used wherever the extension reads something that may be
    absent: a DOM element that was not found, a `null` attribute or a cancelled prompt. */
module Wrappers {

  datatype Option<+T> = None | Some(value: T) {

    /** The value, or `default` when there is none. */
    function GetOr(default: T): T {
      match this
      case Some(v) => v
      case None => default
    }
  }
}
