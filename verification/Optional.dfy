/** The usual optional value, used where the program has `None` or an absent key. */
module Optional {

  datatype Option<+T> = None | Some(value: T) {
    function GetOr(default: T): T {
      match this
      case Some(v) => v
      case None => default
    }
  }
}
