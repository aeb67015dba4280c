/** The result of Go's `flag` parsing, taken as given. */
module Flags {
  import opened GoStrings

  /** The string-valued flags that were set on the command line, by flag name. */
  type FlagSet = map<string, Bytes>

  /** The value of a flag: the one given, or the default it was registered with. */
  function Value(fs: FlagSet, name: string, default: Bytes): Bytes
  {
    if name in fs then fs[name] else default
  }
}
