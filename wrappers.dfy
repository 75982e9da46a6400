/** The conventional optional value: a parsed number or a JSON field that may be absent. */
module Wrappers {
  datatype Option<+T> = None | Some(value: T)
}
