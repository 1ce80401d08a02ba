/** The Option type used for the firmware's null pointers and optional results. */
module Wrappers {

  datatype Option<+T> = None | Some(value: T)
}
