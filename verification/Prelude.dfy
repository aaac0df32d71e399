/** Machine integers and result types shared by every component. */
module Prelude {
  const U64_MAX: int := 0xFFFF_FFFF_FFFF_FFFF
  const I64_MAX: int := 0x7FFF_FFFF_FFFF_FFFF

  type u64 = x: int | 0 <= x <= 0xFFFF_FFFF_FFFF_FFFF
  type byte = x: int | 0 <= x < 256

  datatype Option<+T> = None | Some(value: T)

  datatype Result<+T, +E> = Ok(value: T) | Err(error: E)

  /** The position of the first newline, or the length of a text without one. */
  function NewlineAt(t: string): (n: nat)
    ensures n <= |t|
    ensures forall i :: 0 <= i < n ==> t[i] != '\n'
    ensures n < |t| ==> t[n] == '\n'
  {
    if t == "" || t[0] == '\n' then 0 else 1 + NewlineAt(t[1..])
  }
}
