/** The one failure-compatible type every module of the model shares. */
module Wrappers {
  /** A value that may be missing: the model of a pointer that may be null. */
  datatype Option<+T> = None | Some(value: T)
}
