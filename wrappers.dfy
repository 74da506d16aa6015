/** An optional value: stands for a TypeScript optional property or a result that may be `undefined`. */
module Wrappers {

  datatype Option<+T> = None | Some(value: T)
}
