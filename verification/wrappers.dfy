/** The nullable references of the Java code (a missing cursor row, a display
    field that was never set, an intent without an action) are modelled as Option. */
module Wrappers {

  datatype Option<+T> = None | Some(value: T)
}
