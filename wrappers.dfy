/** The optional result of a lookup against the weather service. */
module Wrappers {

  datatype Option<+T> = None | Some(value: T)
}
