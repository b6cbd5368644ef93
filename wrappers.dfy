/** The optional value used for SQL NULL columns, absent array keys and empty query results. */
module Wrappers {

  datatype Option<+T> = None | Some(value: T)
}
