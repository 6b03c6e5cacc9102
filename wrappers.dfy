/** The optional value the solvers take for `Quaternion? targetRotation`. */
module Wrappers {

  datatype Option<+T> = None | Some(value: T)
}
