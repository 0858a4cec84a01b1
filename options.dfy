/** Optional values, used for the source's `None` results and for calls that may raise. */
module Options {

  datatype Option<+T> = None | Some(value: T)

}
