/** The optional value used wherever the component stores `null` or "nothing yet". */
module Wrappers {
  datatype Option<+T> = None | Some(value: T)
}
