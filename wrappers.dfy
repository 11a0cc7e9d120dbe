/** The optional value used for Kotlin's nullable references (a cursor that may be null,
    a callback that may not fire). */
module Wrappers {

  datatype Option<+T> = None | Some(value: T)
}
