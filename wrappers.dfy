/** The optional value used for collaborator results that may fail. */
module Wrappers {

  datatype Option<+T> = None | Some(value: T)
}
