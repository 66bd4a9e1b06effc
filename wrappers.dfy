/** Failure-compatible Option, used for map lookups and fetches that may miss. */
module Wrappers {
  datatype Option<+T> = None | Some(value: T)
}
