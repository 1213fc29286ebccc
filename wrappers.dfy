/** The optional value, used for a `char*` that may be null and for a message that may be thrown. */
module Wrappers {

  datatype Option<+T> = None | Some(value: T)

}
