/** What other modules share. */
module Prelude {
  datatype Option<+T> = None | Some(value: T)

  /** A request gets through, always when the other side is reliable. */
  method Reachable(reliable: bool) returns (ok: bool)
    ensures reliable ==> ok
  {
    ok := *;
    if reliable { ok := true; }
  }
}
