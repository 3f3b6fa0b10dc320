/** Small value helpers shared by every module of the model. */
module Wrappers {

  /** A Java reference that may be null. */
  datatype Option<+T> = None | Some(value: T)

  /** `s` when `b` holds, nothing otherwise: one conditional step of a trace. */
  function OnlyIf<T>(b: bool, s: seq<T>): seq<T>
  {
    if b then s else []
  }

  function Min(a: int, b: int): int
  {
    if a <= b then a else b
  }
}
