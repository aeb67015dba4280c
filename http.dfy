/** The parts of `net/http` the core builds requests with. */
module Http {
  import opened Wrappers
  import opened GoStrings
  import opened Oracles

  /** `http.Header`: canonical header name to its values. */
  type Header = map<Bytes, seq<Bytes>>

  const MethodGet: Bytes := Ascii("GET")
  const MethodPost: Bytes := Ascii("POST")
  const ContentType: Bytes := Ascii("Content-Type")
  const ApplicationJson: Bytes := Ascii("application/json")
  const Authorization: Bytes := Ascii("Authorization")
  const BearerPrefix: Bytes := Ascii("Bearer ")

  /** `Header.Set`: the key's values become exactly `[value]`. */
  function Set(h: Header, key: Bytes, value: Bytes): Header
  {
    h[key := [value]]
  }

  /** `after` is `before` with `key` holding just `value`, and no other key touched. */
  ghost predicate SetOnly(before: Header, after: Header, key: Bytes, value: Bytes)
  {
    && key in after && after[key] == [value]
    && (forall k :: k != key ==> (k in after <==> k in before))
    && (forall k :: k != key && k in before ==> after[k] == before[k])
  }

  /** An outgoing `*http.Request`; `body` is None for a nil body. */
  datatype Request = Request(verb: Bytes, url: Url, header: Header, body: Option<Bytes>)

  /**
   * `http.NewRequest`: it parses `target` with `url.Parse` and fails when that
   * fails; the new request has an empty header map.
   */
  function NewRequest(env: Env, verb: Bytes, target: Bytes, body: Option<Bytes>): Option<Request>
  {
    if ParsesURL(env, target) then Some(Request(verb, env.parse[target], map[], body)) else None
  }
}
