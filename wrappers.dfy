/** The optional value used wherever a TypeScript field or result may be `undefined`. */
module Wrappers {

  datatype Option<+T> = None | Some(value: T)
}
