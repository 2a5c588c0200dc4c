/** Small value wrappers shared by the game's components. */
module Common {

  /** A value that may be missing: JavaScript's `null`/`undefined` or an empty form field. */
  datatype Option<+T> = None | Some(value: T)
}
