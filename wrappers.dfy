/** The optional-value datatype used throughout the model. In the JavaScript
    layer `None` stands for `undefined`. */
module Wrappers {

  datatype Option<+T> = None | Some(value: T)
}
