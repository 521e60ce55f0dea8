/** The optional value used for fields a record may not have yet. */
module Wrappers {

  datatype Option<+T> = None | Some(value: T)
}
