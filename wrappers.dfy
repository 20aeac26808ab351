/** Small shared helper types. */
module Wrappers {

  /** A value that may be missing (`undefined`/`null` in the system modelled). */
  datatype Option<+T> = None | Some(value: T)
}
