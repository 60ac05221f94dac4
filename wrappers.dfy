/** An optional value: what lodash `find` yields (`undefined` when nothing matches). */
module Wrappers {

  datatype Option<T> = None | Some(value: T)

}
