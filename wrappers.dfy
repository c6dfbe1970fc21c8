/** The optional value used throughout the model for JavaScript's
    `null` / `undefined` results (a `find` that finds nothing, a missing prop). */
module Wrappers {

  datatype Option<+T> = None | Some(value: T)

}
