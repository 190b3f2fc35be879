/** A value that may be absent: stands for a nullable `const char*`. */
module Wrappers {

  datatype Option<+T> = None | Some(value: T)
}
