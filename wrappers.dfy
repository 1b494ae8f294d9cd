/** The optional-value type used for absent configuration, absent streams and failed parses. */
module Wrappers {

  datatype Option<+T> = None | Some(value: T)
}
