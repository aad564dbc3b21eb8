/** The optional value the generator's input tree uses for absent attributes. */
module Options {
  datatype Option<+T> = None | Some(value: T) {
    /** The wrapped value, or `default` when absent (Rust's `unwrap_or`). */
    function GetOr(default: T): (r: T)
      ensures Some? ==> r == value
      ensures None? ==> r == default
    {
      match this
      case Some(v) => v
      case None => default
    }
  }
}
