/** Small things that all models share. */
module Wrappers {
  datatype Option<+T> = None | Some(value: T)

  /**
   * A call to a server or to a part of the system that the model does not open. It may
   * fail, except when all is quiet.
   */
  method Reachable(quiet: bool) returns (ok: bool)
    ensures quiet ==> ok
  {
    ok := *;
    ok := ok || quiet;
  }
}
