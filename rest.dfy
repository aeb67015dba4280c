/**
 * The REST command (internal/rest/rest.go): it checks that its last
 * argument parses as a URL and builds nothing; its request builder always
 * issues a GET.
 */
module Rest {
  import opened Wrappers
  import opened GoStrings
  import opened Oracles
  import opened Outcomes
  import opened Flags
  import opened Json
  import opened Http

  datatype Command = Command(body: Option<Any>, endpoint: Url, header: Header)

  /**
   * `(*REST).NewCommand`. Its flags are parsed and logged but play no part:
   * on success it returns a nil command and a nil error.
   */
  function NewCommand(env: Env, args: seq<Bytes>, fs: FlagSet): (r: Outcome<Option<Command>>)
    ensures r.Panicked? <==> |args| == 0
    ensures |args| > 0 ==> (r == Exited(InvalidURL) <==> !ParsesURL(env, args[|args| - 1]))
    ensures r.Returned? ==> r.value == None
    ensures |args| > 0 && ParsesURL(env, args[|args| - 1]) ==> r == Returned(None)
    ensures !r.ReturnedError?
  {
    if |args| == 0 then Panicked  // args[1:] is out of range
    else if !ParsesURL(env, args[|args| - 1]) then Exited(InvalidURL)
    else Returned(None)
  }

  /**
   * `(*REST).ToRequest`: a GET with a nil body and no headers to the
   * endpoint's rendering, whatever the command's body and header say. A
   * failure to build the request stops the process; it is never returned.
   */
  function ToRequest(env: Env, cmd: Option<Command>): (r: Outcome<Request>)
    ensures r.Panicked? <==> cmd.None?
    ensures !r.ReturnedError?
    ensures cmd.Some? ==> (r == Exited(RequestFailed) <==> !ParsesURL(env, cmd.value.endpoint.text))
    ensures cmd.Some? ==> (r.Returned? <==> ParsesURL(env, cmd.value.endpoint.text))
    ensures r.Returned? ==>
      && r.value.verb == MethodGet
      && r.value.url == env.parse[cmd.value.endpoint.text]
      && r.value.header == map[]
      && r.value.body == None
  {
    match cmd
    case None => Panicked  // cmd.Endpoint dereferences a nil pointer
    case Some(c) =>
      match NewRequest(env, MethodGet, c.endpoint.text, None)
      case None => Exited(RequestFailed)
      case Some(req) => Returned(req)
  }

  /**
   * Neither -method nor -token changes what NewCommand does. -method is
   * registered with the default GET, but its value is only logged, never
   * used, so the default has no effect either.
   */
  lemma FlagsIgnored(env: Env, args: seq<Bytes>, fs: FlagSet, other: FlagSet)
    ensures NewCommand(env, args, fs) == NewCommand(env, args, other)
  {
  }

  /**
   * The two steps never yield a request: a command NewCommand returns is
   * nil, and ToRequest panics on it.
   */
  lemma PipelineBuildsNoRequest(env: Env, args: seq<Bytes>, fs: FlagSet)
    requires NewCommand(env, args, fs).Returned?
    ensures ToRequest(env, NewCommand(env, args, fs).value) == Panicked
  {
  }
}
