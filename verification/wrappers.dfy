/** The optional value used for lookups that may find nothing and for a
    request body that may fail to decode. */
module Wrappers {

  datatype Option<+T> = None | Some(value: T)
}
