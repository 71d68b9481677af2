/**
 * A value that may be absent (JavaScript's `null` / `undefined` next to a present value),
 * and the outcome of a remote table query.
 */
module Wrappers {

  datatype Option<+T> = None | Some(value: T) {

    /** The present value, or `default` when absent (JavaScript's `x || default` on objects). */
    function GetOr(default: T): T {
      match this
      case Some(v) => v
      case None => default
    }
  }

  /**
   * What a `select` on a remote table hands back: an error, or a `data` field that
   * may itself be null. The rows' filtering and ordering happen on the server.
   */
  datatype Response<T> = Failed | Rows(data: Option<seq<T>>)
}
