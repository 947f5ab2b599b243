/** Bytes and the small containers the other modules share. */
module Bytes {
  type byte = b: int | 0 <= b < 256

  const SLASH: byte := 0x2f

  datatype Option<+T> = None | Some(value: T)

  /** Whether no byte of `s` is a `/`. */
  predicate SlashFree(s: seq<byte>) {
    forall i :: 0 <= i < |s| ==> s[i] != SLASH
  }

  /** The position of the first `b` in `s`, or its length. */
  function IndexOf(s: seq<byte>, b: byte): (at: nat)
    ensures at <= |s|
    ensures forall i :: 0 <= i < at ==> s[i] != b
    ensures at < |s| ==> s[at] == b
  {
    if s == [] || s[0] == b then 0 else 1 + IndexOf(s[1..], b)
  }
}
