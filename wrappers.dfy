/** Small helper datatype shared by the modules of the model. */
module Wrappers {

  /** An optional value: a key that may be absent from a message. */
  datatype Option<T> = None | Some(value: T) {

    /** The held value, or `default` when there is none. */
    function GetOr(default: T): T {
      match this
      case Some(v) => v
      case None => default
    }
  }
}
