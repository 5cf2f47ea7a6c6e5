/** What the stage command-line programs share: the option table argparse
    builds (the last value given for each long option, without its leading
    dashes), options with a default, and integer options. Converting the
    text of an integer option is an input. */
module Cli {
  import opened Values

  /** The options given on the command line, by long name. */
  type Argv = map<string, string>

  /** An option without a default: None when it is not given. */
  function Opt(argv: Argv, name: string): (r: Option<string>)
    ensures r.Some? <==> name in argv
    ensures r.Some? ==> r.value == argv[name]
  {
    if name in argv then Some(argv[name]) else None
  }

  /** A string option with a default. */
  function StrOr(argv: Argv, name: string, default: string): (r: string)
    ensures name in argv ==> r == argv[name]
    ensures name !in argv ==> r == default
  {
    Opt(argv, name).GetOr(default)
  }

  /** An `int` option with a default: argparse converts a given value and
      exits with a usage error when it is not an integer. */
  function IntOr(argv: Argv, name: string, default: int, toInt: string -> Option<int>): (r: Result<int>)
    ensures name !in argv ==> r == Ok(default)
    ensures name in argv ==> (r.Ok? <==> toInt(argv[name]).Some?)
    ensures name in argv && r.Ok? ==> Some(r.value) == toInt(argv[name])
  {
    if name !in argv then Ok(default)
    else match toInt(argv[name])
      case Some(n) => Ok(n)
      case None => Err("argument --" + name + ": invalid int value")
  }
}
