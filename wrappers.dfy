/** Small value wrappers shared by the other modules. */
module Wrappers {

  /** A value that may be absent: Python's `None`, or a Win32 call that failed. */
  datatype Option<+T> = None | Some(value: T)
}
