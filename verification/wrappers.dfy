/** The optional value used for inputs and outcomes that may be absent. */
module Wrappers {

  datatype Option<+T> = None | Some(value: T)
}
