/** Optional values: the model of a JavaScript `undefined` result or field. */
module Wrappers {

  datatype Option<+T> = None | Some(value: T)
}
