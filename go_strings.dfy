/** Go's `string` is an immutable sequence of bytes, not of characters. */
module GoStrings {

  type byte = b: int | 0 <= b < 256

  type Bytes = seq<byte>

  /** The bytes of a literal written in the Go source; every such literal is ASCII. */
  function Ascii(s: string): Bytes
  {
    seq(|s|, i requires 0 <= i < |s| => (s[i] as int) % 256)
  }

  /** Literals are converted piece by piece. */
  lemma AsciiAppend(a: string, b: string)
    ensures Ascii(a + b) == Ascii(a) + Ascii(b)
  {
  }
}
