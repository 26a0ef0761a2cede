/** Swift optionals, as a failure-free Some/None datatype. */
module Wrappers {

  datatype Option<+T> = None | Some(value: T)
}
