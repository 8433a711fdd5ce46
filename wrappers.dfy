/** Small value wrappers shared by the modules of the model. */
module Wrappers {
  /** A value that may be missing, standing for a pointer that may be null. */
  datatype Option<T> = None | Some(value: T)
}
