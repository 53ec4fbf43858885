/** The optional value used for Python's `None` defaults and for searches
    that may find nothing. */
module Options {

  datatype Option<T> = None | Some(value: T)
}
