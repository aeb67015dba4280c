/**
 * The two versions of the GraphQL pipeline side by side: the inline branch
 * of main.go and the package internal/gql.
 */
module Versions {
  import opened Wrappers
  import opened GoStrings
  import opened Oracles
  import opened Outcomes
  import opened Flags
  import opened Json
  import Gql
  import Cli

  /**
   * Given both -query and -file after a URL that both parsers accept, main.go
   * stops with a conflict, while internal/gql returns a command whose query
   * is empty.
   */
  lemma BothSourcesDiverge(env: Env, enc: Encoder, args: seq<Bytes>, fs: FlagSet)
    requires |args| > 0 && args[0] == Cli.GqlName
    requires IsRequestURI(env, args[|args| - 1]) && ParsesURL(env, args[|args| - 1])
    requires Value(fs, "query", []) != [] && Value(fs, "file", []) != []
    ensures Cli.Dispatch(env, enc, args, fs) == Cli.ExitsWith(ConflictingQuerySource)
    ensures Gql.Resolve(env, args, fs).Returned? && Gql.Resolve(env, args, fs).value.body.query == []
  {
  }

  /**
   * Given only -query after such a URL, both versions carry the flag's text
   * as the query; only the shape of the body differs.
   */
  lemma InlineQueryAgrees(env: Env, enc: Encoder, args: seq<Bytes>, fs: FlagSet)
    requires |args| > 0 && args[0] == Cli.GqlName
    requires IsRequestURI(env, args[|args| - 1]) && ParsesURL(env, args[|args| - 1])
    requires Value(fs, "query", []) != [] && Value(fs, "file", []) == []
    ensures Gql.Resolve(env, args, fs).Returned?
    ensures Gql.Resolve(env, args, fs).value.body.query == Value(fs, "query", [])
    ensures Cli.Dispatch(env, enc, args, fs).Sends? ==>
      Cli.Dispatch(env, enc, args, fs).request.body == Some(Cli.RequestBody(enc, Value(fs, "query", [])))
    ensures ParsesURL(env, env.parse[args[|args| - 1]].text) ==>
      && Cli.Dispatch(env, enc, args, fs).Sends?
      && Cli.Dispatch(env, enc, args, fs).request.body == Some(Cli.RequestBody(enc, Value(fs, "query", [])))
  {
  }
}
