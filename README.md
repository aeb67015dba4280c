# req: command interpretation and request construction

`req` is a command-line HTTP tool with two request styles: `gql` (a GraphQL
POST) and `http` (a REST GET). This project models the part of it that has
real decisions in it. That part turns the command-line arguments into a
command descriptor and then into an outgoing request. It is modelled in
three places, following the repository:

- `Gql` (internal/gql/gql.go). `NewCommand` reads the last raw argument as
  the *pivot*. A pivot that `url.ParseRequestURI` accepts is the endpoint,
  and `-query` or `-file` give the query. Any other pivot needs
  `-endpoint`, and the pivot is then a file path or the query text itself.
  `ToRequest` builds the POST with the JSON body `{"query":…,"variables":…}`.
  Its header is a copy of the command's header with `Content-Type` forced.
- `Rest` (internal/rest/rest.go). `NewCommand` checks that the last
  argument parses with `url.Parse` and returns a nil command. `ToRequest`
  always builds a GET with a nil body.
- `Cli` (main.go). This is the earlier, inline pipeline: `switch args[0]`
  selects a `gql` or an `http` branch. `Versions` sets the two GraphQL
  pipelines side by side.

Supporting modules:

- `GoStrings`: Go strings as byte sequences.
- `Oracles`: the URL parsers and the file system, as a snapshot `Env` of
  what they answer.
- `Outcomes`: how a Go function ends. It returns a value, returns an error,
  calls `os.Exit(1)`, or panics.
- `Flags`: parsed flag values, with their defaults.
- `Json`: the JSON encoder, as an oracle.
- `Http`: headers, `Header.Set` and `http.NewRequest`.
- `Query`: the query source, which is either inline text, a file, or none.

The imperative functions stay imperative. `Gql.NewCommand` and `Cli.Run`
are methods that assign their results branch by branch, as the source
does. Each is proved equal to a specification function (`Gql.Resolve`,
`Cli.Dispatch`). That function makes the decision through an explicit
`QuerySource`, and the lemmas state its properties branch by branch.

Inputs that the model treats as parameters:

- The string flags that were set, as a map from flag name to value.
  Defaults are applied by the model.
- `Env`: which strings each URL parser accepts, and the URL it yields; which
  paths can be read, and their bytes. `http.NewRequest` fails exactly when
  `url.Parse` of its target fails. Two answers are fixed by Go itself, and
  `Oracles.WellFormed` states them: `url.ParseRequestURI` rejects the empty
  string and `os.ReadFile` fails on the empty path.
- `Encoder`: how `encoding/json` renders a string and a non-nil variables
  map. Two lemmas state as hypotheses what Go's encoder does for the
  strings they are about: the renderings of the two strings compared are
  prefix-free, which holds for valid UTF-8 text but not for arbitrary bytes
  (each invalid byte renders as `\ufffd`), and text that is printable
  ASCII without `"`, `\`, `<`, `>` or `&` is quoted verbatim (the encoder
  escapes those characters and control bytes).

Where the code and the intended behaviour of the tool disagree, the model
follows the code:

- Both `-query` and `-file` with a URL pivot: the intended behaviour is a
  conflict error. internal/gql returns a command with an empty query.
  main.go does reject it.
- The intended behaviour merges a bearer token into GraphQL requests. internal/gql
  never uses `-token`; only main.go sets `Authorization`.
- A REST request is meant to use the `-method` verb and the token.
  The http branch always sends a GET with no `Authorization` header, so
  `http -method=DELETE` still sends a GET; internal/rest always builds
  such a GET and does not send it.
  internal/rest's `NewCommand` returns a nil command, and its `ToRequest`
  would panic on that command.
- The endpoint is meant to be an absolute URL.
  `url.ParseRequestURI` also accepts rooted paths such as `/x`, and main.go
  accepts anything `url.Parse` accepts.
- The pivot is meant to be the last positional argument. Go's flag
  parsing stops at the first argument that is not a flag, so in
  `gql <url> -query={a}` the text `-query={a}` is positional, becomes the
  pivot, and the command fails for want of an endpoint. The code takes the
  last raw argument instead, which differs from the last positional one
  only when no positional argument is left: in
  `gql -endpoint=<url> -query={a}` the flag text `-query={a}` itself is sent
  as the query and the parsed `-query` is ignored.

## Model

| member | source | states |
|---|---|---|
| `Gql.NewCommand` | internal/gql/gql.go:33-99 | the branch-by-branch construction of the command equals the resolver `Resolve` (pivot, endpoint, query source, exits) |
| `Gql.NeverReturnsError` | internal/gql/gql.go:42-98 | an empty argument slice panics (`args[1:]`); otherwise `NewCommand` never returns a non-nil error, only a command or an exit |
| `Gql.CommandShape` | internal/gql/gql.go:38-98 | a returned command has an empty header and nil variables, and the result does not depend on `-token` at all |
| `Gql.UriPivotIsEndpoint` | internal/gql/gql.go:58-62 | with a request-URI pivot the endpoint is the parsed pivot and `-endpoint` has no effect |
| `Gql.UriPivotQuerySource` | internal/gql/gql.go:64-76 | with a request-URI pivot: neither flag gives an exit; only `-query` gives that text; only `-file` gives the file's exact bytes, or an exit if it cannot be read |
| `Gql.UriPivotBothSourcesGiveEmptyQuery` | internal/gql/gql.go:64-98 | with a request-URI pivot and both flags non-empty, no case matches: a command is returned with an empty query |
| `Gql.OtherPivotNeedsEndpointFlag` | internal/gql/gql.go:78-85 | with any other pivot the result is the missing-endpoint exit exactly when `-endpoint` is not a request URI; on success the endpoint is the parsed flag; since the empty string is never a request URI, an empty or missing `-endpoint` always gives that exit |
| `Gql.OtherPivotIsQuery` | internal/gql/gql.go:87-95 | with any other pivot: a readable file's bytes, else the non-empty pivot text, else an exit, which an empty pivot always gives; `-query` and `-file` have no effect |
| `Gql.TrailingFlagIsPivot` | internal/gql/gql.go:42-50 | flag parsing stops at the URL, so in `gql <url> -query={a}` the flag text is the pivot and the command fails for want of an endpoint although the URL is valid |
| `Gql.LastFlagIsPivot` | internal/gql/gql.go:42-95 | with no positional argument the last raw argument, a flag, is the pivot: `gql -endpoint=<url> -query={a}` takes the text `-query={a}` as the query and ignores the parsed `-query` |
| `Gql.ToRequest` | internal/gql/gql.go:101-116 | POST to the re-parsed endpoint with the encoded body; header is the command's with `Content-Type: application/json` and no other key changed; the request is returned exactly when the body encodes and the endpoint's rendering parses, otherwise the error is returned, never an exit |
| `Gql.ResolvedBodyEncodes` | internal/gql/gql.go:14-17 | a resolved command encodes as `{"query":<q>,"variables":null}`, so its request never fails to encode and is built exactly when the endpoint's rendering parses |
| `Gql.BodyDeterminesQuery` | internal/gql/gql.go:102 | when the renderings of the two queries are prefix-free (true of Go's encoder on valid UTF-8), two bodies that encode to the same bytes carry the same query, whatever their variables |
| `Gql.InlineQueryRequest` | internal/gql/gql.go:101-116 | `gql -query=<q> <url>` yields exactly a POST to the URL with body `{"query":"<q>","variables":null}` and only `Content-Type` set |
| `Gql.PingRequest` | internal/gql/gql.go:101-116 | for `gql -query={ping} https://api.example.com/graphql` the body bytes are exactly `{"query":"{ping}","variables":null}` |
| `Rest.NewCommand` | internal/rest/rest.go:26-46 | panics on empty arguments, exits exactly when the last argument does not parse with `url.Parse`, otherwise (the last argument parses) returns a nil command and no error |
| `Rest.FlagsIgnored` | internal/rest/rest.go:27-45 | the flags do not change the outcome of `NewCommand` |
| `Rest.ToRequest` | internal/rest/rest.go:48-55 | GET to the endpoint's rendering with nil body and no header, built exactly when the rendering parses; a construction failure exits, so no error is ever returned; a nil command panics |
| `Rest.PipelineBuildsNoRequest` | internal/rest/rest.go:45-49 | a command returned by `NewCommand` makes `ToRequest` panic |
| `Cli.Run` | main.go:35-182 | the inline pipeline, step by step, equals `Dispatch` |
| `Cli.DispatchOnFirstArgument` | main.go:37-181 | no argument panics; `gql` and `http` select their branches; any other first argument only logs "Unknown command" |
| `Cli.GqlRejectsBothSources` | main.go:52-67 | the last argument must parse with `url.Parse`; then both `-query` and `-file` give the conflict exit, before any file is read |
| `Cli.GqlQuerySource` | main.go:62-98 | only `-file`: the body carries the file's bytes, or an exit if it cannot be read; only `-query`: the flag's text; neither: an exit; the body is `{"query":…}`; when the parsed URL's rendering parses, the request is sent, otherwise a source that yields a query ends in the request-failed exit |
| `Cli.GqlRequestShape` | main.go:94-104 | POST to the parsed URL with `Content-Type: application/json`; `Authorization: Bearer <token>` is present exactly when the token is non-empty; no other header |
| `Cli.HttpAlwaysGet` | main.go:130-153 | GET with no body and no header, whatever `-method` and `-token` say; an unparsable last argument exits; a parsable one is sent, to the parsed URL, exactly when its rendering parses, and otherwise ends in the request-failed exit |
| `Versions.BothSourcesDiverge` | main.go:64-67 | for the same arguments with both sources, main.go exits with a conflict while internal/gql returns an empty query |
| `Versions.InlineQueryAgrees` | main.go:77-88 | with only `-query`, both versions carry the flag's text as the query; when the parsed URL's rendering parses, main.go sends it |

## Left out

- Response handling: `client.Do`, reading the body and printing it in raw mode (main.go:106-128, 155-179), and internal/display/display.go. These are network and terminal I/O; header order there follows Go's random map iteration.
- internal/command/command.go: it only stores a handler and forwards `Run` to it; it has no decisions.
- Logging through `slog` and the global `-debug` flag only write to standard error.
- The bool flag `-raw` selects the output format only and is not modelled. The flag parser itself is not modelled either: the model starts from the string flags it produced. A malformed flag, which makes `fs.Parse` stop the process, is not represented.
- The parsers inside `url.Parse` and `url.ParseRequestURI`, `os.ReadFile`, and `encoding/json` are foreign library code. They are oracles here, and `Env` is one consistent snapshot of them.
- `Header.Set` also canonicalises its key. Every key the core passes (`Content-Type`, `Authorization`) is already canonical, so the model uses the key as given.
- `http.NewRequest` sets `ContentLength` and `GetBody`, which nothing here reads, so they are not modelled.
- `Http.NewRequest`: the model's request URL is the `url.Parse` result for the target as is. Go's `NewRequest` also trims an empty port from the host (a host ending in `:`, as in `http://h:/x`, becomes `http://h/x`); the model omits that trimming, so for such targets the `url` clauses of `Gql.ToRequest`, `Rest.ToRequest`, `Cli.GqlRequestShape`, `Cli.HttpAlwaysGet` and `Gql.InlineQueryRequest` name the untrimmed URL.
- Commands, headers and requests are values. The copy that `Header.Clone` makes in `Gql.ToRequest` is therefore implicit: the command's own header cannot change. Pointer identity is not modelled, because nothing in the core shares these objects.
- `Gql.ToRequest` takes a non-nil command with a non-nil header, which is what `Gql.NewCommand` always produces. A nil pointer or a nil header map would panic in the source.
- The commented-out pretty-printer at the end of main.go is dead code.
