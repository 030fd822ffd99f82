/** The optional value used where the app works with Swift optionals. */
module Options {

  datatype Option<T> = None | Some(value: T) {

    /** The wrapped value, or `default` when there is none. */
    function GetOr(default: T): T {
      match this
      case Some(v) => v
      case None => default
    }
  }
}
