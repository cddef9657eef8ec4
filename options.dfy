/** Optional values: the model's stand-in for `null` and `undefined`. */
module Options {
  datatype Option<+T> = None | Some(value: T)
}
