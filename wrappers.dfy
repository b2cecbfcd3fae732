/** The optional value used for "null" results: a petal dropped by a frame,
    a sprite not rendered, an absent data attribute, a `NaN` from parsing. */
module Wrappers {

  datatype Option<+T> = None | Some(value: T)

  function Min(a: int, b: int): int
  {
    if a <= b then a else b
  }
}
