/** The optional value used wherever the sources have `null`, `undefined` or `None`. */
module Wrappers {
  datatype Option<+T> = None | Some(value: T)
  {
    /** `x || fallback` / `x ?? fallback` for an optional value. */
    function GetOr(fallback: T): T
    {
      if Some? then value else fallback
    }
  }
}
