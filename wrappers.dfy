/** The optional value used for missing request fields, failed spawns and map lookups. */
module Wrappers {

  datatype Option<+T> = None | Some(value: T)
}
