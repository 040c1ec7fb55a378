/** The optional-value datatype shared by the modules of this model. */
module Wrappers {

  /** A value that may be absent: the model's rendering of a C# null. */
  datatype Option<+T> = None | Some(value: T)
}
