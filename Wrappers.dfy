/** An absent value: Java's null or an empty `Optional`. */
module Wrappers {

  datatype Option<+T> = None | Some(value: T)
}
