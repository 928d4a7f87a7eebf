/** The optional value used for the source's `None` results and missing
    dictionary entries. */
module Wrappers {

  datatype Option<+T> = None | Some(value: T) {
    function GetOr(default: T): T {
      match this
      case Some(v) => v
      case None => default
    }
  }
}
