/** The optional value used wherever the script tests a value for truthiness
    (a payload that may be falsy, a search that may find nothing). */
module Wrappers {

  datatype Option<+T> = None | Some(value: T)
}
