/** Option and Result, used for JavaScript's `undefined` and for thrown errors. */
module Wrappers {

  datatype Option<+T> = None | Some(value: T)

  datatype Result<+R, +E> = Success(value: R) | Failure(error: E)

  /** `x` is a JavaScript option read with `opts.x || d`: absent and 0 both give the default. */
  function OrDefault(x: Option<real>, d: real): (r: real)
    ensures x == Some(0.0) ==> r == d
    ensures x.Some? && x.value != 0.0 ==> r == x.value
    ensures x.None? ==> r == d
  {
    match x
    case None => d
    case Some(v) => if v == 0.0 then d else v
  }

  /** The same defaulting rule for integer-valued options. */
  function OrDefaultInt(x: Option<int>, d: int): (r: int)
    ensures x == Some(0) ==> r == d
    ensures x.Some? && x.value != 0 ==> r == x.value
    ensures x.None? ==> r == d
  {
    match x
    case None => d
    case Some(v) => if v == 0 then d else v
  }

  /** `x` read with `'x' in opts ? opts.x : d`: only an absent option gives the default. */
  function InOrDefault(x: Option<real>, d: real): (r: real)
    ensures x.Some? ==> r == x.value
    ensures x.None? ==> r == d
  {
    match x
    case None => d
    case Some(v) => v
  }

  /** `Math.abs`. */
  function Abs(x: real): (r: real)
    ensures r >= 0.0 && (r == x || r == -x)
  {
    if x < 0.0 then -x else x
  }
}
