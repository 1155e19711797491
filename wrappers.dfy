/** Optional values: JavaScript's `undefined`/`null` on the one side, a value on the other. */
module Wrappers {

  datatype Option<+T> = None | Some(value: T) {

    /** `this ?? default` */
    function GetOr(default: T): T {
      match this
      case Some(v) => v
      case None => default
    }

    /** `this ?? other`, when the fallback is itself optional */
    function OrElse(other: Option<T>): Option<T> {
      match this
      case Some(_) => this
      case None => other
    }
  }
}
