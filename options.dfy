/** Optional values: a field that may be None in the entity table. */
module Options {

  datatype Option<T> = None | Some(value: T)
}
