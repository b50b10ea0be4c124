/** Optional values, standing for the source's `null` / `undefined`. */
module Options {

  datatype Option<+T> = None | Some(value: T)
}
