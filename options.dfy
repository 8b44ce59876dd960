/** Optional values: a lookup that can fail, a buffer that may not be held. */
module Options {
  datatype Option<+T> = None | Some(value: T)
}
