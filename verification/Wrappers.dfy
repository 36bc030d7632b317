/** The optional value used for nullable fields, lookups and parse results. */
module Wrappers {
  datatype Option<+T> = None | Some(value: T)
}
