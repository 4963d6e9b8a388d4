/** Optional values: the model's rendering of Go's nil and Java's null. */
module Wrappers {

  datatype Option<+T> = None | Some(value: T)
}
