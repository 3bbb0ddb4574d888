/** The optional value used for JavaScript's `undefined`/`null` where the server can see either. */
module Wrappers {

  datatype Option<+T> = None | Some(value: T)

}
