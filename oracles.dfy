/**
 * The library calls the core depends on, as a snapshot of what they answer
 * during one invocation: Go's URL parsers and the file system.
 */
module Oracles {
  import opened GoStrings

  /** A parsed `url.URL`; `text` is what its `String` method renders. */
  datatype Url = Url(text: Bytes)

  datatype Env = Env(
    requestURI: map<Bytes, Url>,  // the inputs `url.ParseRequestURI` accepts, with the URL it yields
    parse: map<Bytes, Url>,       // the inputs the permissive `url.Parse` accepts, with the URL it yields
    files: map<Bytes, Bytes>)     // the paths `os.ReadFile` reads without error, with their contents

  /** `url.ParseRequestURI(s)` succeeds; it accepts rooted paths like `/x` as well as absolute URLs. */
  predicate IsRequestURI(env: Env, s: Bytes)
  {
    s in env.requestURI
  }

  /** `url.Parse(s)` succeeds. */
  predicate ParsesURL(env: Env, s: Bytes)
  {
    s in env.parse
  }

  /** `os.ReadFile(path)` returns no error. */
  predicate Readable(env: Env, path: Bytes)
  {
    path in env.files
  }

  /**
   * The answers Go fixes whatever the environment: `url.ParseRequestURI`
   * rejects the empty string, and `os.ReadFile` fails on the empty path.
   */
  predicate WellFormed(env: Env)
  {
    !IsRequestURI(env, []) && !Readable(env, [])
  }
}
