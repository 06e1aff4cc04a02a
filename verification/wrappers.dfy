/** The optional-value datatype used for every field a batch record may lack. */
module Wrappers {

  /** `None` stands for a JavaScript `undefined` field. */
  datatype Option<+T> = None | Some(value: T)
}
