/** The optional value used wherever the host may have nothing to report. */
module Wrappers {

  datatype Option<+T> = None | Some(value: T)
}
