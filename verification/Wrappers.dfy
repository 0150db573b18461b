/** The usual optional value, used for nullable pointers and for runs that may be refused. */
module Wrappers {
  datatype Option<+T> = None | Some(value: T)
}
