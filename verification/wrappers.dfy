/** Swift's optional values (`T?`): a value that is present or absent. */
module Wrappers {

  datatype Option<+T> = None | Some(value: T)
}
