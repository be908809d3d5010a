/** The command line: four positional arguments after the interpreter and the
    script, then a loop over option tokens. */
module Options {
  import opened Optional

  /** Number of leading argv entries the program requires: interpreter,
      script, file path, broker address, user name and topic. */
  const RequiredParams: nat := 6

  /** Length of the `--migrate=` prefix. */
  const MigratePrefixLength: nat := 10

  datatype Config = Config(
    filePath: string,
    mqttUrl: string,
    mqttUsername: string,
    mqttTopic: string,
    migrationRegex: Option<string>,
    begin: bool,
    debugging: bool)

  datatype ParseError =
    | MissingRequired           // fewer than RequiredParams entries
    | MissingRegex              // `-m` with nothing after it
    | UnknownOption(token: string)

  /** What the start-up code does with argv: run with a configuration, print
      the help text and exit with status 0, or report an error and exit with
      status 1. */
  datatype Parsed = Run(config: Config) | ShowHelp | Failed(error: ParseError)

  predicate StartsWithMigrate(t: string)
  {
    |t| >= MigratePrefixLength && t[..MigratePrefixLength] == "--migrate="
  }

  /** The configuration before any option token is looked at. */
  function Defaults(argv: seq<string>): Config
    requires |argv| >= RequiredParams
  {
    Config(argv[2], argv[3], argv[4], argv[5], None, false, false)
  }

  /** Options only touch the three option fields. */
  predicate SamePositional(a: Config, b: Config)
  {
    a.filePath == b.filePath && a.mqttUrl == b.mqttUrl
    && a.mqttUsername == b.mqttUsername && a.mqttTopic == b.mqttTopic
  }

  /** The option loop over the remaining tokens, starting from `c`. */
  function ParseOptions(tokens: seq<string>, c: Config): (r: Parsed)
    ensures r.Run? ==> SamePositional(r.config, c)
    ensures r.Run? ==> (c.begin ==> r.config.begin) && (c.debugging ==> r.config.debugging)
    ensures r.Run? && c.migrationRegex.Some? ==> r.config.migrationRegex.Some?
    ensures r != Failed(MissingRequired)
    decreases |tokens|
  {
    if tokens == [] then Run(c)
    else
      var t := tokens[0];
      if t == "-h" || t == "--help" then ShowHelp
      else if t == "-m" then
        if |tokens| == 1 then Failed(MissingRegex)
        else ParseOptions(tokens[2..], c.(migrationRegex := Some(tokens[1])))
      else if t == "-b" || t == "--begin" then ParseOptions(tokens[1..], c.(begin := true))
      else if t == "-d" || t == "--debug" then ParseOptions(tokens[1..], c.(debugging := true))
      else if StartsWithMigrate(t) then
        ParseOptions(tokens[1..], c.(migrationRegex := Some(t[MigratePrefixLength..])))
      else Failed(UnknownOption(t))
  }

  /** The whole command line. */
  function Parse(argv: seq<string>): (r: Parsed)
    ensures |argv| < RequiredParams <==> r == Failed(MissingRequired)
    ensures r.Run? ==> r.config.filePath == argv[2] && r.config.mqttUrl == argv[3]
                       && r.config.mqttUsername == argv[4] && r.config.mqttTopic == argv[5]
  {
    if |argv| < RequiredParams then Failed(MissingRequired)
    else ParseOptions(argv[RequiredParams..], Defaults(argv))
  }

  /** The start-up code's loop over argv, advancing its index past the
      argument of `-m`. */
  method ParseArgv(argv: seq<string>) returns (r: Parsed)
    ensures r == Parse(argv)
  {
    if |argv| < RequiredParams {
      return Failed(MissingRequired);
    }
    var c := Defaults(argv);
    var i := RequiredParams;
    while i < |argv|
      invariant RequiredParams <= i <= |argv|
      invariant ParseOptions(argv[i..], c) == Parse(argv)
    {
      var t := argv[i];
      assert argv[i..][0] == t;
      if t == "-h" || t == "--help" {
        return ShowHelp;
      } else if t == "-m" {
        if |argv| == i + 1 {
          return Failed(MissingRegex);
        }
        assert argv[i..][2..] == argv[i + 2..];
        i := i + 1;
        c := c.(migrationRegex := Some(argv[i]));
      } else if t == "-b" || t == "--begin" {
        c := c.(begin := true);
      } else if t == "-d" || t == "--debug" {
        c := c.(debugging := true);
      } else if StartsWithMigrate(t) {
        c := c.(migrationRegex := Some(t[MigratePrefixLength..]));
      } else {
        return Failed(UnknownOption(t));
      }
      assert argv[i..][1..] == argv[i + 1..];
      i := i + 1;
    }
    assert argv[i..] == [];
    return Run(c);
  }

  /** Tokens that parse completely can be followed by more: the loop then
      carries on from the configuration they produced. */
  lemma {:induction false} ParseOptionsAppend(a: seq<string>, b: seq<string>, c: Config)
    requires ParseOptions(a, c).Run?
    ensures ParseOptions(a + b, c) == ParseOptions(b, ParseOptions(a, c).config)
    decreases |a|
  {
    if a != [] {
      var t := a[0];
      assert (a + b)[0] == t;
      if t == "-m" {
        assert (a + b)[2..] == a[2..] + b;
        ParseOptionsAppend(a[2..], b, c.(migrationRegex := Some(a[1])));
      } else if t == "-b" || t == "--begin" {
        assert (a + b)[1..] == a[1..] + b;
        ParseOptionsAppend(a[1..], b, c.(begin := true));
      } else if t == "-d" || t == "--debug" {
        assert (a + b)[1..] == a[1..] + b;
        ParseOptionsAppend(a[1..], b, c.(debugging := true));
      } else {
        assert (a + b)[1..] == a[1..] + b;
        ParseOptionsAppend(a[1..], b, c.(migrationRegex := Some(t[MigratePrefixLength..])));
      }
    } else {
      assert a + b == b;
    }
  }

  /** A command line that parses, followed by `--migrate=X`: the regex is X
      whatever came before. */
  lemma LaterMigrateOverrides(argv: seq<string>, x: string)
    requires Parse(argv).Run?
    ensures Parse(argv + ["--migrate=" + x]) == Run(Parse(argv).config.(migrationRegex := Some(x)))
  {
    var tail := argv[RequiredParams..];
    assert (argv + ["--migrate=" + x])[RequiredParams..] == tail + ["--migrate=" + x];
    ParseOptionsAppend(tail, ["--migrate=" + x], Defaults(argv));
    var t := "--migrate=" + x;
    assert t[..MigratePrefixLength] == "--migrate=";
    assert t[MigratePrefixLength..] == x;
    var single: seq<string> := [t];
    assert single[1..] == [];
  }

  /** The same for `-m X`. */
  lemma LaterDashMOverrides(argv: seq<string>, x: string)
    requires Parse(argv).Run?
    ensures Parse(argv + ["-m", x]) == Run(Parse(argv).config.(migrationRegex := Some(x)))
  {
    var tail := argv[RequiredParams..];
    assert (argv + ["-m", x])[RequiredParams..] == tail + ["-m", x];
    ParseOptionsAppend(tail, ["-m", x], Defaults(argv));
    assert |["-m", x][2..]| == 0;
  }

  /** A command line that parses, followed by a bare `-m`, is an error. */
  lemma TrailingDashMFails(argv: seq<string>)
    requires Parse(argv).Run?
    ensures Parse(argv + ["-m"]) == Failed(MissingRegex)
  {
    var tail := argv[RequiredParams..];
    assert (argv + ["-m"])[RequiredParams..] == tail + ["-m"];
    ParseOptionsAppend(tail, ["-m"], Defaults(argv));
  }

  /** A command line that parses, followed by a token that is no option, is
      an error naming that token. */
  lemma UnknownTokenFails(argv: seq<string>, t: string)
    requires Parse(argv).Run?
    requires t !in ["-h", "--help", "-m", "-b", "--begin", "-d", "--debug"] && !StartsWithMigrate(t)
    ensures Parse(argv + [t]) == Failed(UnknownOption(t))
  {
    var tail := argv[RequiredParams..];
    assert (argv + [t])[RequiredParams..] == tail + [t];
    ParseOptionsAppend(tail, [t], Defaults(argv));
  }

  /** The flags set by `-b`/`--begin` and `-d`/`--debug`, and the help
      request `-h`/`--help`, after a command line that parses. */
  lemma FlagsSet(argv: seq<string>)
    requires Parse(argv).Run?
    ensures Parse(argv + ["-b"]) == Run(Parse(argv).config.(begin := true))
    ensures Parse(argv + ["--begin"]) == Run(Parse(argv).config.(begin := true))
    ensures Parse(argv + ["-d"]) == Run(Parse(argv).config.(debugging := true))
    ensures Parse(argv + ["--debug"]) == Run(Parse(argv).config.(debugging := true))
    ensures Parse(argv + ["-h"]) == ShowHelp
    ensures Parse(argv + ["--help"]) == ShowHelp
  {
    var tail := argv[RequiredParams..];
    var single: seq<string> := ["-b"];
    assert single[1..] == [];
    OneMoreToken(argv, tail, "-b");
    OneMoreToken(argv, tail, "--begin");
    OneMoreToken(argv, tail, "-d");
    OneMoreToken(argv, tail, "--debug");
    OneMoreToken(argv, tail, "-h");
    OneMoreToken(argv, tail, "--help");
  }

  /** One more token after a command line that parses is parsed from the
      configuration that command line gives. */
  lemma OneMoreToken(argv: seq<string>, tail: seq<string>, t: string)
    requires Parse(argv).Run? && tail == argv[RequiredParams..]
    ensures Parse(argv + [t]) == ParseOptions([t], Parse(argv).config)
  {
    assert (argv + [t])[RequiredParams..] == tail + [t];
    ParseOptionsAppend(tail, [t], Defaults(argv));
  }
}
