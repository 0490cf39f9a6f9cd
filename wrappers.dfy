/** The optional value used for request fields that may be absent and for a
    path parameter that may fail to parse. */
module Wrappers {

  datatype Option<+T> = None | Some(value: T)
}
