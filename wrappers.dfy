/** The optional-value datatype used throughout the model. */
module Wrappers {

  /** A value that may be absent; PHP's `null` and an uninitialised property are both `None`. */
  datatype Option<+T> = None | Some(value: T)
}
