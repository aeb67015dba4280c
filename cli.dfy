/**
 * The entry point (main.go): the earlier, inline version of the pipeline.
 * After the global flags it dispatches on its first argument, builds one
 * request and hands it to the HTTP client.
 */
module Cli {
  import opened Wrappers
  import opened GoStrings
  import opened Oracles
  import opened Outcomes
  import opened Flags
  import opened Json
  import opened Http
  import opened Query

  /** What one invocation does, up to the point where the request is sent. */
  datatype Effect =
    | Sends(request: Request)   // the request passed to `client.Do`
    | ExitsWith(reason: Reason) // logged, then `os.Exit(1)`
    | LogsUnknownCommand        // logs "Unknown command" and returns
    | Panics                    // `args[0]` is out of range

  const GqlName: Bytes := Ascii("gql")
  const HttpName: Bytes := Ascii("http")

  /** `json.Marshal` of a `GraphQLRequest`: an object with only a `query` field. */
  function RequestBody(enc: Encoder, query: Bytes): Bytes
  {
    Ascii("{\"query\":") + enc.str(query) + Ascii("}")
  }

  /** The query-source switch of the gql branch: both flags set is rejected first. */
  function SelectSource(fs: FlagSet): Result<QuerySource>
  {
    var query, file := Value(fs, "query", []), Value(fs, "file", []);
    if query != [] && file != [] then Fail(ConflictingQuerySource)
    else if file != [] then Ok(File(file))
    else if query != [] then Ok(Inline(query))
    else Fail(MissingQuerySource)
  }

  /** The headers of the gql request: JSON content, and a bearer token only if one is given. */
  function GqlHeader(token: Bytes): Header
  {
    var h := Set(map[], ContentType, ApplicationJson);
    if token != [] then Set(h, Authorization, BearerPrefix + token) else h
  }

  function Report(r: Result<Request>): Effect
  {
    match r
    case Ok(req) => Sends(req)
    case Fail(why) => ExitsWith(why)
  }

  /** The gql branch: URL check, query source, body, request, headers. */
  function GqlBranch(env: Env, enc: Encoder, args: seq<Bytes>, fs: FlagSet): Effect
    requires |args| > 0
  {
    Report(
      var last := args[|args| - 1];
      var _ :- if ParsesURL(env, last) then Ok(()) else Fail(InvalidURL);
      var src :- SelectSource(fs);
      var query :- Load(env, src);
      var req :- match NewRequest(env, MethodPost, env.parse[last].text, Some(RequestBody(enc, query)))
        case None => Fail(RequestFailed)
        case Some(req) => Ok(req);
      Ok(req.(header := GqlHeader(Value(fs, "token", [])))))
  }

  /** The http branch: a GET with no body to the last argument; no flag is used. */
  function HttpBranch(env: Env, args: seq<Bytes>): Effect
    requires |args| > 0
  {
    var last := args[|args| - 1];
    if !ParsesURL(env, last) then ExitsWith(InvalidURL)
    else
      match NewRequest(env, MethodGet, env.parse[last].text, None)
      case None => ExitsWith(RequestFailed)
      case Some(req) => Sends(req)
  }

  /** The `switch args[0]` of main, on the arguments left after the global flags. */
  function Dispatch(env: Env, enc: Encoder, args: seq<Bytes>, fs: FlagSet): Effect
  {
    if |args| == 0 then Panics
    else if args[0] == GqlName then GqlBranch(env, enc, args, fs)
    else if args[0] == HttpName then HttpBranch(env, args)
    else LogsUnknownCommand
  }

  /** main, as written: pointer variables and in-place header updates become local variables. */
  method Run(env: Env, enc: Encoder, args: seq<Bytes>, fs: FlagSet) returns (e: Effect)
    ensures e == Dispatch(env, enc, args, fs)
  {
    if |args| == 0 {
      return Panics;
    }
    var last := args[|args| - 1];
    if args[0] == GqlName {
      var query := Value(fs, "query", []);
      var file := Value(fs, "file", []);
      var token := Value(fs, "token", []);
      if !ParsesURL(env, last) {
        return ExitsWith(InvalidURL);
      }
      var url := env.parse[last];
      var queryStr: Bytes;
      if query != [] && file != [] {
        return ExitsWith(ConflictingQuerySource);
      } else if file != [] {
        if !Readable(env, file) {
          return ExitsWith(QueryFileUnreadable);
        }
        queryStr := env.files[file];
      } else if query != [] {
        queryStr := query;
      } else {
        return ExitsWith(MissingQuerySource);
      }
      var reqBodyJson := RequestBody(enc, queryStr);
      var made := NewRequest(env, MethodPost, url.text, Some(reqBodyJson));
      if made.None? {
        return ExitsWith(RequestFailed);
      }
      var req := made.value;
      req := req.(header := Set(req.header, ContentType, ApplicationJson));
      if token != [] {
        req := req.(header := Set(req.header, Authorization, BearerPrefix + token));
      }
      return Sends(req);
    } else if args[0] == HttpName {
      if !ParsesURL(env, last) {
        return ExitsWith(InvalidURL);
      }
      var url := env.parse[last];
      var made := NewRequest(env, MethodGet, url.text, None);
      if made.None? {
        return ExitsWith(RequestFailed);
      }
      return Sends(made.value);
    } else {
      return LogsUnknownCommand;
    }
  }

  // ---------------------------------------------------------------------
  // What main decides.

  /** `gql` and `http` select their branches; any other word builds nothing. */
  lemma DispatchOnFirstArgument(env: Env, enc: Encoder, args: seq<Bytes>, fs: FlagSet)
    ensures |args| == 0 <==> Dispatch(env, enc, args, fs) == Panics
    ensures |args| > 0 && args[0] == GqlName ==> Dispatch(env, enc, args, fs) == GqlBranch(env, enc, args, fs)
    ensures |args| > 0 && args[0] == HttpName ==> Dispatch(env, enc, args, fs) == HttpBranch(env, args)
    ensures Dispatch(env, enc, args, fs) == LogsUnknownCommand <==>
      |args| > 0 && args[0] != GqlName && args[0] != HttpName
  {
  }

  /** The last argument must parse; then both -query and -file together are rejected. */
  lemma GqlRejectsBothSources(env: Env, enc: Encoder, args: seq<Bytes>, fs: FlagSet)
    requires |args| > 0 && args[0] == GqlName
    ensures !ParsesURL(env, args[|args| - 1]) ==> Dispatch(env, enc, args, fs) == ExitsWith(InvalidURL)
    ensures ParsesURL(env, args[|args| - 1]) && Value(fs, "query", []) != [] && Value(fs, "file", []) != [] ==>
      Dispatch(env, enc, args, fs) == ExitsWith(ConflictingQuerySource)
  {
  }

  /**
   * In the gql branch the query is the file's bytes when only -file is
   * given, the flag when only -query is given, and missing otherwise; the
   * body is `{"query":…}` around that text. Once the parsed URL renders to
   * text that parses again, a request with that body is always sent.
   */
  lemma GqlQuerySource(env: Env, enc: Encoder, args: seq<Bytes>, fs: FlagSet)
    requires |args| > 0 && args[0] == GqlName && ParsesURL(env, args[|args| - 1])
    ensures var e, query, file := Dispatch(env, enc, args, fs), Value(fs, "query", []), Value(fs, "file", []);
      && (query == [] && file != [] && !Readable(env, file) ==> e == ExitsWith(QueryFileUnreadable))
      && (query == [] && file != [] && Readable(env, file) && e.Sends? ==>
            e.request.body == Some(RequestBody(enc, env.files[file])))
      && (query != [] && file == [] && e.Sends? ==> e.request.body == Some(RequestBody(enc, query)))
      && (query == [] && file == [] ==> e == ExitsWith(MissingQuerySource))
    ensures var e, query, file, last := Dispatch(env, enc, args, fs), Value(fs, "query", []), Value(fs, "file", []), args[|args| - 1];
      ParsesURL(env, env.parse[last].text) ==>
      && (query == [] && file != [] && Readable(env, file) ==>
            e.Sends? && e.request.body == Some(RequestBody(enc, env.files[file])))
      && (query != [] && file == [] ==> e.Sends? && e.request.body == Some(RequestBody(enc, query)))
      && e != ExitsWith(RequestFailed)
    ensures var e, query, file, last := Dispatch(env, enc, args, fs), Value(fs, "query", []), Value(fs, "file", []), args[|args| - 1];
      !ParsesURL(env, env.parse[last].text) ==>
      && (query == [] && file != [] && Readable(env, file) ==> e == ExitsWith(RequestFailed))
      && (query != [] && file == [] ==> e == ExitsWith(RequestFailed))
  {
  }

  /**
   * A gql request is a POST to the parsed URL carrying JSON; it has an
   * `Authorization: Bearer <token>` header exactly when -token is not empty,
   * and no other header.
   */
  lemma GqlRequestShape(env: Env, enc: Encoder, args: seq<Bytes>, fs: FlagSet)
    requires |args| > 0 && args[0] == GqlName
    requires Dispatch(env, enc, args, fs).Sends?
    ensures var req, token := Dispatch(env, enc, args, fs).request, Value(fs, "token", []);
      && req.verb == MethodPost
      && req.url == env.parse[env.parse[args[|args| - 1]].text]
      && req.header[ContentType] == [ApplicationJson]
      && (Authorization in req.header <==> token != [])
      && (token != [] ==> req.header[Authorization] == [BearerPrefix + token])
      && req.header.Keys <= {ContentType, Authorization}
  {
  }

  /**
   * An http request is a GET with no body and no header, whatever -method
   * and -token say; it is sent exactly when the parsed URL renders to text
   * that parses again, and then goes to that URL.
   */
  lemma HttpAlwaysGet(env: Env, enc: Encoder, args: seq<Bytes>, fs: FlagSet)
    requires |args| > 0 && args[0] == HttpName
    ensures Dispatch(env, enc, args, fs) == Dispatch(env, enc, args, map[])
    ensures !ParsesURL(env, args[|args| - 1]) ==> Dispatch(env, enc, args, fs) == ExitsWith(InvalidURL)
    ensures var last := args[|args| - 1];
      ParsesURL(env, last) ==>
        (Dispatch(env, enc, args, fs).Sends? <==> ParsesURL(env, env.parse[last].text))
    ensures var last := args[|args| - 1];
      ParsesURL(env, last) && ParsesURL(env, env.parse[last].text) ==>
        Dispatch(env, enc, args, fs).request.url == env.parse[env.parse[last].text]
    ensures var last := args[|args| - 1];
      ParsesURL(env, last) && !ParsesURL(env, env.parse[last].text) ==>
        Dispatch(env, enc, args, fs) == ExitsWith(RequestFailed)
    ensures Dispatch(env, enc, args, fs).Sends? ==>
      && Dispatch(env, enc, args, fs).request.verb == MethodGet
      && Dispatch(env, enc, args, fs).request.body == None
      && Dispatch(env, enc, args, fs).request.header == map[]
  {
  }
}
