/** Small value wrappers shared by the model: a nullable column or lookup result. */
module Wrappers {

  /** A value that may be absent: a NULL column, or a query that found no row. */
  datatype Option<+T> = None | Some(value: T) {

    /** The wrapped value, or `default` when absent. */
    function GetOr(default: T): T {
      match this
      case Some(v) => v
      case None => default
    }
  }
}
