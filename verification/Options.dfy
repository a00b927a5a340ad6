/** Columns and lookups that may be empty. */
module Options {

  datatype Option<T> = None | Some(value: T)
  {
    /** The ?? operator. */
    function Or(default: T): T { if None? then default else value }
  }
}
