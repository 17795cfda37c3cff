/** The optional value used for SQL NULL, for a failed parse and for a
    missing draft field. */
module Wrappers {

  datatype Option<+T> = None | Some(value: T)
}
