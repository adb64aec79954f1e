/** The optional value used for the classifier's outcome and the stream's label. */
module Wrappers {
  datatype Option<+T> = None | Some(value: T)
}
