/** The optional value returned by a point-location query. */
module Wrappers {

  datatype Option<+T> = None | Some(value: T)
}
