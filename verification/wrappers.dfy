/** The optional value used for Java's nullable references (a comment's
    drawing cache, the displayer's canvas). */
module Wrappers {

  datatype Option<+T> = None | Some(value: T)

}
