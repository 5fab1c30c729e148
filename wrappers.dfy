/** The optional-value wrapper used for values the source keeps as `None`. */
module Wrappers {

  datatype Option<+T> = None | Some(value: T)
}
