/** The optional value used wherever the Swift code returns an optional. */
module Wrappers {

  datatype Option<+T> = None | Some(value: T)
}
