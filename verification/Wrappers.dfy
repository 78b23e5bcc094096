/** What is missing is said with one type everywhere. */
module Wrappers {

  datatype Option<+T> = None | Some(value: T)
}
