/** A value that may be absent. */
module Wrappers {
  datatype Option<+T> = None | Some(value: T) {
    /** The value, or the default when there is none. */
    function UnwrapOr(default: T): T {
      if Some? then value else default
    }
  }
}
