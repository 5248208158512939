/** Optional values, as Rust's `Option<T>` is used throughout the diagnostic tool. */
module Options {

  datatype Option<+T> = None | Some(value: T)
}
