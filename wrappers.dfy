/** Optional values, shared by the other modules. */
module Wrappers {

  /** A value that may be absent: Python's `None`, TypeScript's `null`. */
  datatype Option<+T> = None | Some(value: T)
}
