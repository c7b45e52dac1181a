/** The optional value used for every slot the source leaves as None/null. */
module Wrappers {

  datatype Option<+T> = None | Some(value: T)
}
