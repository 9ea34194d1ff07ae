/** The optional value used for the probe's nullable subscription handle. */
module Wrappers {

  datatype Option<+T> = None | Some(value: T)
}
