/** The optional value used for the draft's `referenceId?` field. */
module Wrappers {

  datatype Option<+T> = None | Some(value: T)
}
