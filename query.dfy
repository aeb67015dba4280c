/** Where the text of a GraphQL query comes from. */
module Query {
  import opened GoStrings
  import opened Oracles
  import opened Outcomes

  /**
   * Inline text, a file to read, or no source at all (the query is then
   * left at Go's zero value, the empty string).
   */
  datatype QuerySource = Inline(text: Bytes) | File(path: Bytes) | Unselected

  /** The query text a source yields; a file is read whole, byte for byte. */
  function Load(env: Env, src: QuerySource): Result<Bytes>
  {
    match src
    case Inline(t) => Ok(t)
    case File(p) => if Readable(env, p) then Ok(env.files[p]) else Fail(QueryFileUnreadable)
    case Unselected => Ok([])
  }
}
