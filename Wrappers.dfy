/** The optional value used wherever the components keep `T | null` state. */
module Wrappers {

  datatype Option<+T> = None | Some(value: T)
}
