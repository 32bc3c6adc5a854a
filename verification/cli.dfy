/** The decisions `main` makes after its options are parsed: the verbosity
    count that `-v` and `-q` adjust, its clamp into the five-entry table of
    logging levels, and the choice between the version driver and the path
    driver. */
module Cli {
  import opened Locator
  import opened Report

  /** One `-v`/`--verbose` or `-q`/`--quiet` on the command line. */
  datatype VerbosityFlag = Verbose | Quiet

  /** The verbosity with no flag given. */
  const DefaultVerbosity := 2

  /** The numeric levels of the `logging` module. */
  const Critical := 50
  const Error := 40
  const Warning := 30
  const Info := 20
  const Debug := 10

  /** The level for each clamped verbosity, least chatty first. */
  const LogLevels: seq<int> := [Critical, Error, Warning, Info, Debug]

  /** The verbosity count: starts at the default, each `-v` adds one and
      each `-q` takes one away, whatever their order. */
  function Verbosity(flags: seq<VerbosityFlag>): (v: int)
    ensures v == DefaultVerbosity + multiset(flags)[Verbose] - multiset(flags)[Quiet]
  {
    if |flags| == 0 then DefaultVerbosity
    else
      var init := flags[..|flags| - 1];
      assert flags == init + [flags[|flags| - 1]];
      Verbosity(init) + (if flags[|flags| - 1] == Verbose then 1 else -1)
  }

  /** `max(0, min(4, verbose))`: an index into the level table. */
  function ClampVerbosity(v: int): (k: nat)
    ensures k < |LogLevels|
    ensures 0 <= v < |LogLevels| ==> k == v
    ensures v < 0 ==> k == 0
    ensures |LogLevels| <= v ==> k == |LogLevels| - 1
  {
    var upper := if 4 < v then 4 else v;
    if upper < 0 then 0 else upper
  }

  /** The logging level `main` sets for the given flags. */
  function LogLevel(flags: seq<VerbosityFlag>): (level: int)
    ensures level in LogLevels
    ensures level == Critical - 10 * ClampVerbosity(Verbosity(flags))
  {
    LogLevels[ClampVerbosity(Verbosity(flags))]
  }

  /** More verbosity never raises the logging threshold. */
  lemma MoreVerboseLogsMore(v: int, w: int)
    requires v <= w
    ensures LogLevels[ClampVerbosity(w)] <= LogLevels[ClampVerbosity(v)]
  {
  }

  /** With no `-v` or `-q` the level is WARNING; `-v -v` gives DEBUG, `-q`
      gives ERROR, and `-v -q` cancels out, so DEBUG needs two more `-v`
      than `-q`. */
  lemma FlagLevels()
    ensures LogLevel([]) == Warning
    ensures LogLevel([Verbose]) == Info
    ensures LogLevel([Verbose, Verbose]) == Debug
    ensures LogLevel([Quiet]) == Error
    ensures LogLevel([Verbose, Quiet]) == Warning
    ensures LogLevel([Verbose, Verbose, Quiet]) == Info
  {
  }

  /** The parsed command line: the verbosity flags, the path options, whether
      `--ver` was given, and the module names. */
  datatype Invocation = Invocation(
    flags: seq<VerbosityFlag>,
    options: Options,
    findVersion: bool,
    names: seq<string>)

  /** `main` after option parsing: picks the logging level, runs the version
      driver under `--ver` and the path driver otherwise, and always reports
      exit status 0, even when lookups failed. */
  method Run(host: Host, inv: Invocation)
    returns (out: seq<string>, err: seq<string>, level: int, status: int)
    ensures status == 0
    ensures level == LogLevel(inv.flags)
    ensures |out| + |err| == |inv.names|
    ensures inv.findVersion ==>
      out == Written(Out, BatchTranscript(VersionDriver, inv.names, VersionLookup(host)))
      && err == Written(Err, BatchTranscript(VersionDriver, inv.names, VersionLookup(host)))
    ensures !inv.findVersion ==>
      out == Written(Out, BatchTranscript(PathDriver, inv.names, PathLookup(host, inv.options)))
      && err == Written(Err, BatchTranscript(PathDriver, inv.names, PathLookup(host, inv.options)))
  {
    level := LogLevels[ClampVerbosity(Verbosity(inv.flags))];
    if inv.findVersion {
      out, err := FindVersions(host, inv.names);
    } else {
      out, err := IdentifyModules(host, inv.names, inv.options);
    }
    status := 0;
  }
}
