/** The Option type used for results of external collaborators that may fail. */
module Wrappers {
  datatype Option<+T> = None | Some(value: T)
}
