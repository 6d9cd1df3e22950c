/** Small vocabulary shared by the other modules. */
module Basics {

  datatype Option<+T> = None | Some(value: T)

  function Max(a: int, b: int): int { if a < b then b else a }

  function Min(a: int, b: int): int { if a < b then a else b }

  // Histories grow at the end, so functions of a history recurse on its front.

  function Last<T>(ts: seq<T>): T
    requires |ts| > 0
  {
    ts[|ts| - 1]
  }

  function Front<T>(ts: seq<T>): seq<T>
    requires |ts| > 0
  {
    ts[..|ts| - 1]
  }
}
