/**
 * The GraphQL command (internal/gql/gql.go): resolving the raw arguments of
 * `gql` into a command, and turning a command into a POST request.
 */
module Gql {
  import opened Wrappers
  import opened GoStrings
  import opened Oracles
  import opened Outcomes
  import opened Flags
  import opened Json
  import opened Http
  import opened Query

  /** The request body: encoded as `{"query": …, "variables": …}`. */
  datatype Body = Body(query: Bytes, variables: Option<Variables>)

  datatype Command = Command(body: Body, endpoint: Url, header: Header)

  /** The endpoint a command will be sent to, and where its query comes from. */
  datatype Selection = Selection(endpoint: Url, source: QuerySource)

  /** The last element of the raw argument slice, flags included. */
  function Pivot(args: seq<Bytes>): Bytes
    requires |args| > 0
  {
    args[|args| - 1]
  }

  /**
   * The decision NewCommand takes before reading any file named by -file:
   * a request-URI pivot is the endpoint and the flags name the query; any
   * other pivot needs -endpoint and is itself a file path or the query.
   */
  function Select(env: Env, pivot: Bytes, fs: FlagSet): Result<Selection>
  {
    var query, file, endpoint := Value(fs, "query", []), Value(fs, "file", []), Value(fs, "endpoint", []);
    if IsRequestURI(env, pivot) then
      var url := env.requestURI[pivot];
      if query == [] && file == [] then Fail(MissingQuerySource)
      else if file == [] then Ok(Selection(url, Inline(query)))
      else if query == [] then Ok(Selection(url, File(file)))
      else Ok(Selection(url, Unselected))
    else if !IsRequestURI(env, endpoint) then Fail(MissingEndpoint)
    else
      var url := env.requestURI[endpoint];
      if Readable(env, pivot) then Ok(Selection(url, File(pivot)))
      else if pivot != [] then Ok(Selection(url, Inline(pivot)))
      else Fail(InvalidQuerySource)
  }

  /** What NewCommand does with the raw arguments `args` and the parsed flags `fs`. */
  function Resolve(env: Env, args: seq<Bytes>, fs: FlagSet): Outcome<Command>
  {
    if |args| == 0 then Panicked  // args[1:] is out of range
    else
      Exits(
        var sel :- Select(env, Pivot(args), fs);
        var query :- Load(env, sel.source);
        Ok(Command(Body(query, None), sel.endpoint, map[])))
  }

  /** `(*GQL).NewCommand`, step by step as the source fills in `cmd`. */
  method NewCommand(env: Env, args: seq<Bytes>, fs: FlagSet) returns (r: Outcome<Command>)
    ensures r == Resolve(env, args, fs)
  {
    if |args| == 0 {
      return Panicked;
    }
    var query := Value(fs, "query", []);
    var file := Value(fs, "file", []);
    var endpoint := Value(fs, "endpoint", []);
    var lastArg := args[|args| - 1];
    var cmd := Command(Body([], None), Url([]), map[]);
    if IsRequestURI(env, lastArg) {
      cmd := cmd.(endpoint := env.requestURI[lastArg]);
      if query == [] && file == [] {
        return Exited(MissingQuerySource);
      } else if query != [] && file == [] {
        cmd := cmd.(body := cmd.body.(query := query));
      } else if query == [] && file != [] {
        if !Readable(env, file) {
          return Exited(QueryFileUnreadable);
        }
        cmd := cmd.(body := cmd.body.(query := env.files[file]));
      }
    } else {
      if !IsRequestURI(env, endpoint) {
        return Exited(MissingEndpoint);
      }
      cmd := cmd.(endpoint := env.requestURI[endpoint]);
      if Readable(env, lastArg) {
        cmd := cmd.(body := cmd.body.(query := env.files[lastArg]));
      } else if lastArg != [] {
        cmd := cmd.(body := cmd.body.(query := lastArg));
      } else {
        return Exited(InvalidQuerySource);
      }
    }
    return Returned(cmd);
  }

  const BodyOpen: Bytes := Ascii("{\"query\":")
  const BodyMiddle: Bytes := Ascii(",\"variables\":")
  const BodyClose: Bytes := Ascii("}")

  /** `json.Marshal(body)`: the fields in declaration order; a nil map is `null`. */
  function Marshal(enc: Encoder, body: Body): Option<Bytes>
  {
    var vars :- VarsJson(enc, body.variables);
    Some(BodyOpen + enc.str(body.query) + BodyMiddle + vars + BodyClose)
  }

  /** The rendering of the variables field; a nil map is `null`. */
  function VarsJson(enc: Encoder, variables: Option<Variables>): Option<Bytes>
  {
    match variables
    case None => Some(Null)
    case Some(m) => enc.vars(m)
  }

  /** `(*GQL).ToRequest`. */
  function ToRequest(env: Env, enc: Encoder, cmd: Command): (r: Outcome<Request>)
    ensures r.Returned? || r.ReturnedError?
    ensures r == ReturnedError(EncodingFailed) <==> Marshal(enc, cmd.body).None?
    ensures r == ReturnedError(RequestFailed) <==>
      Marshal(enc, cmd.body).Some? && !ParsesURL(env, cmd.endpoint.text)
    ensures r.Returned? <==> Marshal(enc, cmd.body).Some? && ParsesURL(env, cmd.endpoint.text)
    ensures r.Returned? ==>
      && r.value.verb == MethodPost
      && r.value.url == env.parse[cmd.endpoint.text]
      && r.value.body == Marshal(enc, cmd.body)
      && SetOnly(cmd.header, r.value.header, ContentType, ApplicationJson)
  {
    match Marshal(enc, cmd.body)
    case None => ReturnedError(EncodingFailed)
    case Some(json) =>
      match NewRequest(env, MethodPost, cmd.endpoint.text, Some(json))
      case None => ReturnedError(RequestFailed)
      case Some(req) => Returned(req.(header := Set(cmd.header, ContentType, ApplicationJson)))
  }

  // ---------------------------------------------------------------------
  // What NewCommand decides, branch by branch.

  /** An empty argument slice panics; otherwise no error is ever returned. */
  lemma NeverReturnsError(env: Env, args: seq<Bytes>, fs: FlagSet)
    ensures Resolve(env, args, fs).Panicked? <==> |args| == 0
    ensures !Resolve(env, args, fs).ReturnedError?
  {
  }

  /**
   * A command starts with an empty header and nil variables, and -token
   * takes no part in the decision: it never reaches a header.
   */
  lemma CommandShape(env: Env, args: seq<Bytes>, fs: FlagSet, token: Bytes)
    ensures Resolve(env, args, fs["token" := token]) == Resolve(env, args, fs)
    ensures Resolve(env, args, fs).Returned? ==>
      Resolve(env, args, fs).value.header == map[] && Resolve(env, args, fs).value.body.variables == None
  {
  }

  /** A request-URI pivot is the endpoint, whatever -endpoint says. */
  lemma UriPivotIsEndpoint(env: Env, args: seq<Bytes>, fs: FlagSet, endpoint: Bytes)
    requires |args| > 0 && IsRequestURI(env, Pivot(args))
    ensures Resolve(env, args, fs["endpoint" := endpoint]) == Resolve(env, args, fs)
    ensures Resolve(env, args, fs).Returned? ==>
      Resolve(env, args, fs).value.endpoint == env.requestURI[Pivot(args)]
  {
  }

  /** With a request-URI pivot the query comes from -query or -file. */
  lemma UriPivotQuerySource(env: Env, args: seq<Bytes>, fs: FlagSet)
    requires |args| > 0 && IsRequestURI(env, Pivot(args))
    ensures var r, query, file := Resolve(env, args, fs), Value(fs, "query", []), Value(fs, "file", []);
      && (query == [] && file == [] ==> r == Exited(MissingQuerySource))
      && (query != [] && file == [] ==> r.Returned? && r.value.body.query == query)
      && (query == [] && file != [] && Readable(env, file) ==>
            r.Returned? && r.value.body.query == env.files[file])
      && (query == [] && file != [] && !Readable(env, file) ==> r == Exited(QueryFileUnreadable))
  {
  }

  /**
   * Both -query and -file with a request-URI pivot match no case of the
   * source's switch: the command is returned with an empty query, and the
   * file is never read.
   */
  lemma UriPivotBothSourcesGiveEmptyQuery(env: Env, args: seq<Bytes>, fs: FlagSet)
    requires |args| > 0 && IsRequestURI(env, Pivot(args))
    requires Value(fs, "query", []) != [] && Value(fs, "file", []) != []
    ensures Resolve(env, args, fs).Returned?
    ensures Resolve(env, args, fs).value.body.query == []
  {
  }

  /** Any other pivot needs -endpoint to be a request URI, which then is the endpoint. */
  lemma OtherPivotNeedsEndpointFlag(env: Env, args: seq<Bytes>, fs: FlagSet)
    requires |args| > 0 && !IsRequestURI(env, Pivot(args))
    ensures var r, endpoint := Resolve(env, args, fs), Value(fs, "endpoint", []);
      && (r == Exited(MissingEndpoint) <==> !IsRequestURI(env, endpoint))
      && (r.Returned? ==> r.value.endpoint == env.requestURI[endpoint])
    ensures WellFormed(env) && Value(fs, "endpoint", []) == [] ==> Resolve(env, args, fs) == Exited(MissingEndpoint)
  {
  }

  /**
   * Any other pivot is the query itself: the contents of the file it names
   * if that can be read, else the pivot text if it is not empty. -query and
   * -file are ignored.
   */
  lemma OtherPivotIsQuery(env: Env, args: seq<Bytes>, fs: FlagSet, query: Bytes, file: Bytes)
    requires |args| > 0 && !IsRequestURI(env, Pivot(args))
    requires IsRequestURI(env, Value(fs, "endpoint", []))
    ensures var r, pivot := Resolve(env, args, fs), Pivot(args);
      && (Readable(env, pivot) ==> r.Returned? && r.value.body.query == env.files[pivot])
      && (!Readable(env, pivot) && pivot != [] ==> r.Returned? && r.value.body.query == pivot)
      && (!Readable(env, pivot) && pivot == [] ==> r == Exited(InvalidQuerySource))
    ensures WellFormed(env) && Pivot(args) == [] ==> Resolve(env, args, fs) == Exited(InvalidQuerySource)
    ensures Resolve(env, args, fs["query" := query]["file" := file]) == Resolve(env, args, fs)
  {
  }

  /**
   * Flag parsing stops at the first argument that is not a flag, so a flag
   * written after the URL is positional: `gql <url> -query={a}` leaves
   * every flag unset, takes `-query={a}` as the pivot, and then fails for
   * want of an endpoint (`url.ParseRequestURI` rejects the empty string).
   */
  lemma TrailingFlagIsPivot(env: Env, url: Bytes)
    requires IsRequestURI(env, url)
    requires WellFormed(env) && !IsRequestURI(env, Ascii("-query={a}"))
    ensures Resolve(env, [Ascii("gql"), url, Ascii("-query={a}")], map[]) == Exited(MissingEndpoint)
  {
  }

  /**
   * The pivot is the last raw argument, not the last positional one; the
   * two differ only when no positional argument is left. Then the last
   * flag is the pivot: `gql -endpoint=<url> -query={a}` sends the text
   * `-query={a}` as the query, and the parsed -query is ignored.
   */
  lemma LastFlagIsPivot(env: Env, url: Bytes)
    requires IsRequestURI(env, url)
    requires !IsRequestURI(env, Ascii("-query={a}")) && !Readable(env, Ascii("-query={a}"))
    ensures var args := [Ascii("gql"), Ascii("-endpoint=") + url, Ascii("-query={a}")];
      var fs := map["endpoint" := url, "query" := Ascii("{a}")];
      Resolve(env, args, fs) == Returned(Command(Body(Ascii("-query={a}"), None), env.requestURI[url], map[]))
  {
  }

  // ---------------------------------------------------------------------
  // What ToRequest sends.

  /**
   * A resolved command always encodes: its variables are rendered `null`,
   * so ToRequest fails only when the endpoint's rendering does not parse.
   */
  lemma ResolvedBodyEncodes(env: Env, enc: Encoder, args: seq<Bytes>, fs: FlagSet)
    requires Resolve(env, args, fs).Returned?
    ensures var cmd := Resolve(env, args, fs).value;
      Marshal(enc, cmd.body) == Some(BodyOpen + enc.str(cmd.body.query) + BodyMiddle + Null + BodyClose)
    ensures var cmd := Resolve(env, args, fs).value;
      ToRequest(env, enc, cmd) != ReturnedError(EncodingFailed)
    ensures var cmd := Resolve(env, args, fs).value;
      ToRequest(env, enc, cmd).Returned? <==> ParsesURL(env, cmd.endpoint.text)
  {
  }

  /**
   * The body carries its query unambiguously: when the renderings of the two
   * queries are prefix-free (as Go's are for valid UTF-8 text), equal encoded
   * bodies carry equal queries, whatever the variables.
   */
  lemma {:induction false} BodyDeterminesQuery(enc: Encoder, b1: Body, b2: Body)
    requires Marshal(enc, b1).Some? && Marshal(enc, b2).Some?
    requires PrefixFree(enc, b1.query, b2.query) && PrefixFree(enc, b2.query, b1.query)
    requires Marshal(enc, b1) == Marshal(enc, b2)
    ensures b1.query == b2.query
  {
    var e1, e2 := enc.str(b1.query), enc.str(b2.query);
    var t1, t2 := BodyMiddle + VarsJson(enc, b1.variables).value + BodyClose, BodyMiddle + VarsJson(enc, b2.variables).value + BodyClose;
    MarshalSplits(enc, b1);
    MarshalSplits(enc, b2);
    assert BodyOpen + (e1 + t1) == BodyOpen + (e2 + t2);
    assert e1 + t1 == e2 + t2 by {
      DropCommonPrefix(BodyOpen, e1 + t1, e2 + t2);
    }
    PrefixComparable(e1, t1, e2, t2);
  }

  /** The encoded body, split at the end of the rendered query. */
  lemma MarshalSplits(enc: Encoder, b: Body)
    requires Marshal(enc, b).Some?
    ensures VarsJson(enc, b.variables).Some?
    ensures Marshal(enc, b).value
      == BodyOpen + (enc.str(b.query) + (BodyMiddle + VarsJson(enc, b.variables).value + BodyClose))
  {
  }

  lemma DropCommonPrefix(p: Bytes, a: Bytes, b: Bytes)
    requires p + a == p + b
    ensures a == b
  {
    assert a == (p + a)[|p|..];
    assert b == (p + b)[|p|..];
  }

  lemma PrefixComparable(a: Bytes, x: Bytes, b: Bytes, y: Bytes)
    requires a + x == b + y
    ensures a <= b || b <= a
  {
    if |a| <= |b| {
      assert a == (a + x)[..|a|] == (b + y)[..|a|] == b[..|a|];
    } else {
      assert b == (b + y)[..|b|] == (a + x)[..|b|] == a[..|b|];
    }
  }

  /**
   * The end-to-end shape: `gql -query=<q> <url>` for a query the encoder
   * quotes verbatim is a POST to the URL with the body
   * `{"query":"<q>","variables":null}` and only `Content-Type` set.
   */
  lemma {:induction false} InlineQueryRequest(env: Env, enc: Encoder, url: Bytes, q: Bytes)
    requires IsRequestURI(env, url) && ParsesURL(env, env.requestURI[url].text)
    requires q != [] && QuotesVerbatim(enc, q)
    ensures var cmd := Resolve(env, [Ascii("gql"), Ascii("-query=") + q, url], map["query" := q]);
      && cmd == Returned(Command(Body(q, None), env.requestURI[url], map[]))
      && ToRequest(env, enc, cmd.value) == Returned(Request(
           MethodPost,
           env.parse[env.requestURI[url].text],
           map[ContentType := [ApplicationJson]],
           Some(Ascii("{\"query\":\"") + q + Ascii("\",\"variables\":null}"))))
  {
    var args := [Ascii("gql"), Ascii("-query=") + q, url];
    assert Pivot(args) == url;
    var body := BodyOpen + enc.str(q) + BodyMiddle + Null + BodyClose;
    assert Ascii("{\"query\":\"") == BodyOpen + Ascii("\"");
    assert Ascii("\",\"variables\":null}") == Ascii("\"") + BodyMiddle + Null + BodyClose;
    assert body == Ascii("{\"query\":\"") + q + Ascii("\",\"variables\":null}");
  }

  /** The byte-level concatenations the `{ping}` scenario rests on. */
  lemma PingLiterals()
    ensures Ascii("-query=") + Ascii("{ping}") == Ascii("-query={ping}")
    ensures Ascii("{\"query\":\"") + Ascii("{ping}") + Ascii("\",\"variables\":null}")
         == Ascii("{\"query\":\"{ping}\",\"variables\":null}")
  {
    AsciiAppend("-query=", "{ping}");
    assert "-query=" + "{ping}" == "-query={ping}";
    AsciiAppend("{\"query\":\"", "{ping}");
    assert "{\"query\":\"" + "{ping}" == "{\"query\":\"{ping}";
    AsciiAppend("{\"query\":\"{ping}", "\",\"variables\":null}");
    assert "{\"query\":\"{ping}" + "\",\"variables\":null}" == "{\"query\":\"{ping}\",\"variables\":null}";
  }

  /** The `{ping}` scenario: the body bytes are exactly `{"query":"{ping}","variables":null}`. */
  lemma PingRequest(env: Env, enc: Encoder)
    requires var url := Ascii("https://api.example.com/graphql");
      IsRequestURI(env, url) && ParsesURL(env, env.requestURI[url].text)
    requires QuotesVerbatim(enc, Ascii("{ping}"))
    ensures var url := Ascii("https://api.example.com/graphql");
      var cmd := Resolve(env, [Ascii("gql"), Ascii("-query={ping}"), url], map["query" := Ascii("{ping}")]);
      && cmd.Returned?
      && ToRequest(env, enc, cmd.value).Returned?
      && ToRequest(env, enc, cmd.value).value.body == Some(Ascii("{\"query\":\"{ping}\",\"variables\":null}"))
  {
    var url, q := Ascii("https://api.example.com/graphql"), Ascii("{ping}");
    PingLiterals();
    assert [Ascii("gql"), Ascii("-query={ping}"), url] == [Ascii("gql"), Ascii("-query=") + q, url];
    InlineQueryRequest(env, enc, url, q);
  }
}
