/** The outcome of a read that may fail. */
module Wrappers {

  datatype Option<+T> = None | Some(value: T)
}
