/** Optional values: the model's rendering of TypeScript's `T | null` and `field?: T`. */
module Wrappers {
  datatype Option<T> = None | Some(value: T) {
    /** `x ?? d` */
    function GetOr(default: T): T {
      if Some? then value else default
    }
  }

  /**
   * The expanded-row toggle of the list pages: clicking a row opens it,
   * and clicking the open row closes it, so at most one row is open.
   */
  function Toggle<T(==)>(open: Option<T>, x: T): (r: Option<T>)
    ensures r == Some(x) <==> open != Some(x)
    ensures r.None? <==> open == Some(x)
  {
    if open == Some(x) then None else Some(x)
  }
}
