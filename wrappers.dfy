/** Small value wrappers shared by the modules of this model. */
module Wrappers {

  /** A value that may be absent: `undefined` / `null` in the program. */
  datatype Option<+T> = None | Some(value: T)
}
