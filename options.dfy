/** Optional values: an absent (`undefined`) prop or result next to a present value. */
module Options {
  datatype Option<+T> = None | Some(value: T)
}
