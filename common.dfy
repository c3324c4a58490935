/** Failure-carrying values shared by every module of the model. */
module Common {

  /** A value that may be absent: a nullable column, an optional route parameter,
      or a backend read that returned an error. */
  datatype Option<+T> = None | Some(value: T) {
    function GetOr(default: T): T {
      match this
      case Some(v) => v
      case None => default
    }
  }

  /** The result of a remote write issued to the backend data service. */
  datatype Outcome = Ok | Err
}
