/** The optional values the source uses for SQL NULL and absent fields. */
module Options {

  datatype Option<+T> = None | Some(value: T)

  /** SQL `COALESCE(a, b)`. */
  function Coalesce<T>(a: Option<T>, b: Option<T>): Option<T> {
    if a.Some? then a else b
  }
}
