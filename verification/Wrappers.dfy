/** A value that may be missing: an absent file, an unset timestamp, a fact the platform cannot supply. */
module Wrappers {
  datatype Option<+T> = None | Some(value: T)
}
