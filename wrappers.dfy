/** An optional value: the model's stand-in for JavaScript's `null` / `undefined`. */
module Wrappers {

  datatype Option<+T> = None | Some(value: T) {

    /** The value, or `default` when there is none (JavaScript's `x || default` on objects). */
    function GetOr(default: T): T
    {
      match this
      case Some(v) => v
      case None => default
    }

    /** This value when present, otherwise `other`: of two spread overrides, the later one wins. */
    function OrElse(other: Option<T>): Option<T>
    {
      if this.Some? then this else other
    }
  }
}
