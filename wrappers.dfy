/** Optional values: a query parameter that was not given, a quote that could not be fetched. */
module Wrappers {
  datatype Option<+T> = None | Some(value: T)
}
