/** A value that may be absent. */
module Wrappers {

  /** A value that may be missing, such as the text a completion provider
      returns, or nothing when the request failed. */
  datatype Option<+T> = None | Some(value: T)
}
