/** Types shared by every part of the codec model. */
module Common {

  /** An unsigned 8-bit cell, as C#'s `byte`. */
  type byte = x: int | 0 <= x < 256

  /** The conventional Some/None datatype standing in for a C# null reference. */
  datatype Option<+T> = None | Some(value: T)

  /** `n` copies of `v`. */
  function Repeat<T>(v: T, n: nat): (r: seq<T>)
    ensures |r| == n
    ensures forall k :: 0 <= k < n ==> r[k] == v
  {
    seq(n, _ => v)
  }
}
