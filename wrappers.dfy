/** An optional value, for the source's `None`-able fields. */
module Wrappers {

  datatype Option<+T> = None | Some(value: T)
}
