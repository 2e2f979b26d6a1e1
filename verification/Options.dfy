/** Optional values, as in the source's `Option`. */
module Options {
  datatype Option<+T> = None | Some(value: T)

  /** The first of the two that is present. */
  function Or<T>(o: Option<T>, p: Option<T>): Option<T> {
    if o.Some? then o else p
  }

  function GetOr<T>(o: Option<T>, default: T): T {
    if o.Some? then o.value else default
  }
}
