/** The optional value used throughout the model for "may be absent". */
module Wrappers {

  datatype Option<+T> = None | Some(value: T)
}
