/** The optional value used for the serial device's reply and for decoding. */
module Wrappers {

  datatype Option<+T> = None | Some(value: T)
}
