/**
 * `encoding/json` as an oracle. Only the shape of the objects the tool
 * encodes is fixed by the model; how a string or a map is rendered is not.
 */
module Json {
  import opened Wrappers
  import opened GoStrings

  /** A Go value of static type `any`; only the encoder looks inside it. */
  datatype Any = Any(repr: Bytes)

  /** A GraphQL variables map, `map[string]any`. */
  type Variables = map<Bytes, Any>

  /**
   * `str` renders a string; it never fails, since Go replaces invalid UTF-8
   * instead of rejecting it. `vars` renders a non-nil variables map, and can
   * fail (a channel or function value cannot be encoded).
   */
  datatype Encoder = Encoder(str: Bytes -> Bytes, vars: Variables -> Option<Bytes>)

  /** How a nil map is rendered. */
  const Null: Bytes := Ascii("null")

  /**
   * The rendering of `a` is a prefix of that of `b` only when `a == b`. A
   * JSON string literal ends at its first unescaped quote, so Go's encoder
   * has this property for every pair of valid UTF-8 strings. It does not
   * hold for every pair of byte strings: each invalid UTF-8 byte is
   * rendered as `\ufffd`, so the one-byte strings 0xfe and 0xff render
   * alike.
   */
  predicate PrefixFree(enc: Encoder, a: Bytes, b: Bytes)
  {
    enc.str(a) <= enc.str(b) ==> a == b
  }

  /**
   * `s` is rendered as itself between double quotes, as Go's encoder renders
   * any printable ASCII text without `"`, `\`, `<`, `>` or `&`.
   */
  predicate QuotesVerbatim(enc: Encoder, s: Bytes)
  {
    enc.str(s) == Ascii("\"") + s + Ascii("\"")
  }
}
