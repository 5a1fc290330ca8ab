/** The optional value used for the outcome of external calls (decoding, process exit). */
module Wrappers {
  datatype Option<+T> = None | Some(value: T)
}
