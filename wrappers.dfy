/** Optional values, used for the "value, ok" and "value, err" returns of the scanner's helpers. */
module Wrappers {

  datatype Option<+T> = None | Some(value: T)
}
