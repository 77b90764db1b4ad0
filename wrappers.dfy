/** The usual Some/None datatype: an optional query parameter, a missing record entry. */
module Wrappers {

  datatype Option<+T> = None | Some(value: T)

}
