// What a query that may find nothing answers.
module Wrappers {
  datatype Option<+T> = None | Some(value: T)
}
