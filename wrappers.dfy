/** The optional-value datatype used across the model. */
module Wrappers {

  /** A value that may be absent: a JavaScript `undefined`/`null` where the source tolerates one. */
  datatype Option<+T> = None | Some(value: T)
}
