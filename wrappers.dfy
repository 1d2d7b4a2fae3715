/** A value that may be absent: the model's stand-in for TypeScript's optional
    fields (`fromUser?`, `level?`) and for `find` returning `undefined`. */
module Wrappers {

  datatype Option<+T> = None | Some(value: T)
}
