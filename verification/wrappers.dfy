/** The optional value used for "found / not found" answers and for decoders. */
module Wrappers {

  datatype Option<+T> = None | Some(value: T)

}
