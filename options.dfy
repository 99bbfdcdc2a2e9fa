/** Optional values, used for the per-layer pending chain step. */
module Options {
  datatype Option<+T> = None | Some(value: T)
}
