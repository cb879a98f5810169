/** The optional value the web part stores when a mission code has no record. */
module Wrappers {

  /** `None` stands for the `null`/`undefined` the source returns or stores. */
  datatype Option<+T> = None | Some(value: T)
}
