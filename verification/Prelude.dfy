/** Small shared helpers: optional values, bounds, and an element of a set. */
module Prelude {

  datatype Option<+T> = None | Some(value: T) {
    function GetOr(default: T): T {
      match this
      case None => default
      case Some(v) => v
    }
  }

  function Min(a: int, b: int): int {
    if a < b then a else b
  }

  function Max(a: int, b: int): int {
    if a < b then b else a
  }

  /** An arbitrary element, for loops over a set in no particular order. */
  method AnyOf<T(==)>(s: set<T>) returns (x: T)
    requires s != {}
    ensures x in s
  {
    x :| x in s;
  }
}
