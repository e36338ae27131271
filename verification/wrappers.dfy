/** The option type shared by every module of the model. */
module Wrappers {

  datatype Option<+T> = None | Some(value: T) {
    /** The value inside, or `default` when there is none */
    function GetOr(default: T): T {
      match this
      case None => default
      case Some(v) => v
    }
  }
}
