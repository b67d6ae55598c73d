/** Byte strings, the Go `string` the gateway's channel names and grants are made of. */
module Bytes {

  newtype byte = x: int | 0 <= x < 256

  type Text = seq<byte>

  datatype Option<+T> = None | Some(value: T)

  const STAR: byte := 42
  const UNDERSCORE: byte := 95

  /** `tail` is what `s` ends with. */
  predicate IsSuffix(tail: Text, s: Text) {
    |tail| <= |s| && s[|s| - |tail|..] == tail
  }

  /** A channel or grant beginning with the reserved "_". */
  predicate Reserved(s: Text) {
    s != [] && s[0] == UNDERSCORE
  }
}
