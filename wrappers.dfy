/** The optional value used for the partial parsers of this model. */
module Wrappers {
  datatype Option<+T> = None | Some(value: T)
}
