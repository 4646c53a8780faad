/** The conventional Some/None datatype, for partial results such as parsers. */
module Wrappers {

  datatype Option<+T> = None | Some(value: T)
}
