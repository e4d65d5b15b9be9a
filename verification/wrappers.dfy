/** Optional values, used for the inputs that JavaScript may leave `undefined`. */
module Wrappers {

  datatype Option<+T> = None | Some(value: T) {

    /** Returns the value held in Some, or `default` when None. */
    function GetOr(default: T): (r: T)
      ensures Some? ==> r == value
      ensures None? ==> r == default
    {
      match this
      case Some(v) => v
      case None => default
    }
  }

  /** JavaScript truthiness of a value that is either `undefined` or a string:
      `undefined` and the empty string are falsy, every other string is truthy. */
  function Truthy(s: Option<string>): (b: bool)
    ensures s.None? ==> !b
    ensures s.Some? ==> (b <==> |s.value| > 0)
  {
    s.Some? && s.value != ""
  }
}
