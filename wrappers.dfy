/** The optional-value datatype shared by the whole model. A JavaScript
    property that may be `undefined` (or `null`) is an `Option`. */
module Wrappers {

  datatype Option<+T> = None | Some(value: T)

}
