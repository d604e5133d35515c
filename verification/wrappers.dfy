/** The optional-value type used by the parsing functions. */
module Wrappers {

  datatype Option<+T> = None | Some(value: T)
}
