// The optional value used wherever the source returns None or catches a
// failed lookup.
module Wrappers {

  datatype Option<+T> = None | Some(value: T)
}
