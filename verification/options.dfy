/** The optional value used for lookups that can miss: a session-state key
    that was never written, or a seed-table filter that matches no row. */
module Options {

  datatype Option<+T> = None | Some(value: T)
}
