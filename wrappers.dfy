/** Optional values, used wherever the modelled code may produce nothing
    (no reply, no padding, an unparseable number). */
module Wrappers {

  datatype Option<+T> = None | Some(value: T) {

    /** The value, or `default` when there is none. */
    function GetOr(default: T): T {
      match this
      case Some(v) => v
      case None => default
    }
  }
}
