/** Option: the "present or absent" value of a JSON key, an environment
    variable, a header or a fetch that may fail. */
module Wrappers {

  datatype Option<+T> = None | Some(value: T) {

    /** The value when present, the given default otherwise
        (the `??` and `||` defaults of the source). */
    function GetOr(default: T): T {
      match this
      case Some(v) => v
      case None => default
    }
  }
}
