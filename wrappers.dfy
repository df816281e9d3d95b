/** The optional value used for the window-handle slot and for reads that can fail. */
module Wrappers {

  datatype Option<+T> = None | Some(value: T)
}
