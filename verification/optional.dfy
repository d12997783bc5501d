/** A JavaScript value that may be `undefined` or `null`, as used for the
    optional fields of a media asset and the optional picker props. */
module Optional {

  datatype Option<+T> = None | Some(value: T) {

    /** The value, or `default` when there is none (a destructuring default). */
    function GetOr(default: T): T {
      match this
      case Some(v) => v
      case None => default
    }
  }
}
