/** An optional value: a lookup that may find nothing, a prompt that may be declined. */
module Wrappers {

  datatype Option<+T> = None | Some(value: T)
}
