/** An optional value, for the fields the source leaves as `None`. */
module Wrappers {

  datatype Option<+T> = None | Some(value: T)
}
