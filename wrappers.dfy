/** Optional values: a request-body field that is absent (JavaScript `undefined`),
    or a lookup that found nothing. */
module Wrappers {

  datatype Option<T> = None | Some(value: T) {

    /** The wrapped value, or `default` when there is none. */
    function GetOr(default: T): T {
      match this
      case Some(v) => v
      case None => default
    }
  }
}
