/** Small value wrapper shared by both form components. */
module Wrappers {

  /** A value that may be absent: a rendered view or nothing, a report or nothing. */
  datatype Option<+T> = None | Some(value: T)
}
