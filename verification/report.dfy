/** The batch drivers `identify_modules` and `find_version`: one lookup per
    module name, in argument order, each reported by exactly one write on
    standard output (success) or standard error (failure). A failure is
    reported and the loop goes on with the next name.

    A line is modelled without its trailing newline; the two streams are
    two sequences of lines, and the interleaving of both is the transcript. */
module Report {
  import opened Strings
  import opened Locator

  /** Which driver is running; they differ only in the one-name error line. */
  datatype Driver = PathDriver | VersionDriver

  /** The two output streams. */
  datatype Stream = Out | Err

  /** One line written by a driver, on standard output or standard error. */
  datatype Line = Line(stream: Stream, text: string)

  /** The success template: the bare value for one name, `name: value`
      otherwise. */
  function SuccessText(single: bool, name: string, value: string): (text: string)
    ensures single ==> text == value
    ensures !single ==> StartsWith(text, name + ": ") && text[|name| + 2..] == value
  {
    if single then value
    else
      ConcatHasPrefixAndSuffix(name + ": ", value);
      name + ": " + value
  }

  /** The part of an error line before the reason. */
  function ErrorLead(driver: Driver, single: bool, name: string): string {
    if !single then name + ": "
    else match driver
      case PathDriver => "Module '" + name + "' "
      case VersionDriver => "Distribution/module '" + name + "' "
  }

  /** The error template of each driver, for one name or for several. Every
      form is a lead naming the module followed by the reason. */
  function ErrorText(driver: Driver, single: bool, name: string, error: string): (text: string)
    ensures !single ==> StartsWith(text, name + ": ")
    ensures single && driver == PathDriver ==> StartsWith(text, "Module '" + name + "' ")
    ensures single && driver == VersionDriver ==> StartsWith(text, "Distribution/module '" + name + "' ")
    ensures EndsWith(text, "not found (" + error + ")")
  {
    var lead := ErrorLead(driver, single, name);
    ConcatHasPrefixAndSuffix(lead, "not found (" + error + ")");
    lead + ("not found (" + error + ")")
  }

  /** The line reporting one lookup: standard output exactly when the
      lookup succeeded. */
  function ReportLine(driver: Driver, single: bool, name: string, r: Lookup<string>): (line: Line)
    ensures line.stream == Out <==> r.Found?
  {
    match r
    case Found(v) => Line(Out, SuccessText(single, name, v))
    case ModuleNotFound(msg) => Line(Err, ErrorText(driver, single, name, msg))
  }

  /** The exact text of a line when several names are given:
      `name: <value>` or `name: not found (<message>)`. */
  lemma ReportLineShape(driver: Driver, name: string, r: Lookup<string>)
    ensures StartsWith(ReportLine(driver, false, name, r).text, name + ": ")
    ensures r.Found? ==> ReportLine(driver, false, name, r).text == name + ": " + r.value
    ensures r.ModuleNotFound? ==>
      ReportLine(driver, false, name, r).text == name + ": not found (" + r.msg + ")"
  {
    if r.ModuleNotFound? {
      assert name + ": " + ("not found (" + r.msg + ")") == name + ": not found (" + r.msg + ")";
    }
  }

  /** The exact text of a line when one name is given: the bare value, or
      the driver's own lead, `Module '<name>' ` for paths and
      `Distribution/module '<name>' ` for versions, followed by
      `not found (<message>)`. */
  lemma OneNameLineShape(driver: Driver, name: string, r: Lookup<string>)
    ensures r.Found? ==> ReportLine(driver, true, name, r).text == r.value
    ensures r.ModuleNotFound? && driver == PathDriver ==>
      ReportLine(driver, true, name, r).text == "Module '" + name + "' not found (" + r.msg + ")"
    ensures r.ModuleNotFound? && driver == VersionDriver ==>
      ReportLine(driver, true, name, r).text == "Distribution/module '" + name + "' not found (" + r.msg + ")"
  {
    if r.ModuleNotFound? {
      var tail := "not found (" + r.msg + ")";
      assert "Module '" + name + "' " + tail == "Module '" + name + "' not found (" + r.msg + ")";
      assert "Distribution/module '" + name + "' " + tail
          == "Distribution/module '" + name + "' not found (" + r.msg + ")";
    }
  }

  /** Every line the driver writes, both streams interleaved. */
  function Transcript(driver: Driver, single: bool, names: seq<string>, lookup: string -> Lookup<string>): (lines: seq<Line>)
    ensures |lines| == |names|
    ensures forall i :: 0 <= i < |names| ==>
      lines[i] == ReportLine(driver, single, names[i], lookup(names[i]))
  {
    if |names| == 0 then []
    else [ReportLine(driver, single, names[0], lookup(names[0]))] + Transcript(driver, single, names[1..], lookup)
  }

  /** The transcript of a whole invocation: the one-name templates are chosen
      when exactly one name is given. */
  function BatchTranscript(driver: Driver, names: seq<string>, lookup: string -> Lookup<string>): seq<Line> {
    Transcript(driver, |names| == 1, names, lookup)
  }

  /** The texts of the lines written to `stream`, in order. */
  function Written(stream: Stream, lines: seq<Line>): seq<string> {
    if |lines| == 0 then []
    else (if lines[0].stream == stream then [lines[0].text] else []) + Written(stream, lines[1..])
  }

  lemma {:induction false} WrittenOfAppend(stream: Stream, a: seq<Line>, b: seq<Line>)
    ensures Written(stream, a + b) == Written(stream, a) + Written(stream, b)
    decreases |a|
  {
    if |a| == 0 {
      assert a + b == b;
    } else {
      assert (a + b)[0] == a[0];
      assert (a + b)[1..] == a[1..] + b;
      WrittenOfAppend(stream, a[1..], b);
    }
  }

  /** The success lines of the names whose lookup succeeds, in argument
      order. */
  function SuccessLines(single: bool, names: seq<string>, lookup: string -> Lookup<string>): seq<string> {
    if |names| == 0 then []
    else
      (match lookup(names[0])
       case Found(v) => [SuccessText(single, names[0], v)]
       case ModuleNotFound(_) => [])
      + SuccessLines(single, names[1..], lookup)
  }

  /** The error lines of the names whose lookup fails, in argument order. */
  function ErrorLines(driver: Driver, single: bool, names: seq<string>, lookup: string -> Lookup<string>): seq<string> {
    if |names| == 0 then []
    else
      (match lookup(names[0])
       case Found(_) => []
       case ModuleNotFound(msg) => [ErrorText(driver, single, names[0], msg)])
      + ErrorLines(driver, single, names[1..], lookup)
  }

  /** Standard output holds the success lines of the succeeding names and
      standard error the error lines of the failing names, each in argument
      order; together they hold exactly one write per name. */
  lemma {:induction false} StreamsFollowNames(driver: Driver, single: bool, names: seq<string>, lookup: string -> Lookup<string>)
    ensures Written(Out, Transcript(driver, single, names, lookup)) == SuccessLines(single, names, lookup)
    ensures Written(Err, Transcript(driver, single, names, lookup)) == ErrorLines(driver, single, names, lookup)
    ensures |Written(Out, Transcript(driver, single, names, lookup))|
          + |Written(Err, Transcript(driver, single, names, lookup))| == |names|
    decreases |names|
  {
    if |names| > 0 {
      var lines := Transcript(driver, single, names, lookup);
      StreamsFollowNames(driver, single, names[1..], lookup);
      assert lines[1..] == Transcript(driver, single, names[1..], lookup);
    }
  }

  /** A failure on one name changes nothing in the line of any other name:
      line `j` depends on the lookup of `names[j]` alone. */
  lemma LineDependsOnOwnLookup(driver: Driver, names: seq<string>, j: nat,
                               lookup: string -> Lookup<string>, other: string -> Lookup<string>)
    requires j < |names|
    requires lookup(names[j]) == other(names[j])
    ensures BatchTranscript(driver, names, lookup)[j] == BatchTranscript(driver, names, other)[j]
  {
  }

  /** With one name there is no `name: ` prefix: a success prints only the
      value, a failure only the driver's one-name error line. */
  lemma SingleNameOutput(driver: Driver, name: string, lookup: string -> Lookup<string>)
    ensures var lines := BatchTranscript(driver, [name], lookup);
      match lookup(name)
      case Found(v) => Written(Out, lines) == [v] && Written(Err, lines) == []
      case ModuleNotFound(msg) => Written(Out, lines) == [] && Written(Err, lines) == [ErrorText(driver, true, name, msg)]
  {
    var lines := BatchTranscript(driver, [name], lookup);
    assert lines == [lines[0]];
  }

  /** Two names, the first failing and the second found: one prefixed line
      on each stream. */
  lemma FailureThenSuccess(driver: Driver, bad: string, good: string, lookup: string -> Lookup<string>)
    requires lookup(bad).ModuleNotFound? && lookup(good).Found?
    ensures Written(Err, BatchTranscript(driver, [bad, good], lookup)) == [bad + ": not found (" + lookup(bad).msg + ")"]
    ensures Written(Out, BatchTranscript(driver, [bad, good], lookup)) == [good + ": " + lookup(good).value]
  {
    var lines := BatchTranscript(driver, [bad, good], lookup);
    assert lines == [lines[0]] + [lines[1]];
    WrittenOfAppend(Out, [lines[0]], [lines[1]]);
    WrittenOfAppend(Err, [lines[0]], [lines[1]]);
    var msg := lookup(bad).msg;
    assert bad + ": " + ("not found (" + msg + ")") == bad + ": not found (" + msg + ")";
  }

  /** The transcript of two runs of names is the two transcripts one after
      the other. */
  lemma {:induction false} TranscriptAppend(driver: Driver, single: bool, a: seq<string>, b: seq<string>,
                                            lookup: string -> Lookup<string>)
    ensures Transcript(driver, single, a + b, lookup)
         == Transcript(driver, single, a, lookup) + Transcript(driver, single, b, lookup)
    decreases |a|
  {
    if |a| == 0 {
      assert a + b == b;
    } else {
      assert (a + b)[0] == a[0];
      assert (a + b)[1..] == a[1..] + b;
      TranscriptAppend(driver, single, a[1..], b, lookup);
    }
  }

  /** Reporting one more name appends that name's line to the transcript. */
  lemma TranscriptSnoc(driver: Driver, single: bool, names: seq<string>, i: nat, lookup: string -> Lookup<string>)
    requires i < |names|
    ensures Transcript(driver, single, names[..i + 1], lookup)
         == Transcript(driver, single, names[..i], lookup) + [ReportLine(driver, single, names[i], lookup(names[i]))]
  {
    assert names[..i + 1] == names[..i] + [names[i]];
    TranscriptAppend(driver, single, names[..i], [names[i]], lookup);
  }

  /** ... and so extends exactly one of the two streams, by that line. */
  lemma WrittenStep(stream: Stream, driver: Driver, single: bool, names: seq<string>, i: nat, lookup: string -> Lookup<string>)
    requires i < |names|
    ensures var line := ReportLine(driver, single, names[i], lookup(names[i]));
      Written(stream, Transcript(driver, single, names[..i + 1], lookup))
      == Written(stream, Transcript(driver, single, names[..i], lookup))
         + (if line.stream == stream then [line.text] else [])
  {
    var line := ReportLine(driver, single, names[i], lookup(names[i]));
    TranscriptSnoc(driver, single, names, i, lookup);
    WrittenOfAppend(stream, Transcript(driver, single, names[..i], lookup), [line]);
    assert [line][1..] == [];
  }

  /** The driver loop: looks up each name in turn and appends its line to
      the stream it belongs on. */
  method RunBatch(driver: Driver, names: seq<string>, lookup: string -> Lookup<string>)
    returns (out: seq<string>, err: seq<string>)
    ensures out == Written(Out, BatchTranscript(driver, names, lookup))
    ensures err == Written(Err, BatchTranscript(driver, names, lookup))
  {
    var single := |names| == 1;
    out, err := [], [];
    var i := 0;
    while i < |names|
      invariant 0 <= i <= |names|
      invariant out == Written(Out, Transcript(driver, single, names[..i], lookup))
      invariant err == Written(Err, Transcript(driver, single, names[..i], lookup))
    {
      WrittenStep(Out, driver, single, names, i, lookup);
      WrittenStep(Err, driver, single, names, i, lookup);
      match lookup(names[i]) {
        case Found(v) =>
          out := out + [SuccessText(single, names[i], v)];
        case ModuleNotFound(msg) =>
          err := err + [ErrorText(driver, single, names[i], msg)];
      }
      i := i + 1;
    }
    assert names[..i] == names;
  }

  /** The lookup `identify_modules` applies to every name. */
  function PathLookup(host: Host, opts: Options): string -> Lookup<string> {
    name => IdentifyFilepath(host, name, opts)
  }

  /** The lookup `find_version` applies to every name. */
  function VersionLookup(host: Host): string -> Lookup<string> {
    name => FindVersion(host, name)
  }

  /** `identify_modules`: the located path of each name, or why it was not
      found. */
  method IdentifyModules(host: Host, names: seq<string>, opts: Options)
    returns (out: seq<string>, err: seq<string>)
    ensures |out| + |err| == |names|
    ensures out == Written(Out, BatchTranscript(PathDriver, names, PathLookup(host, opts)))
    ensures err == Written(Err, BatchTranscript(PathDriver, names, PathLookup(host, opts)))
  {
    out, err := RunBatch(PathDriver, names, PathLookup(host, opts));
    StreamsFollowNames(PathDriver, |names| == 1, names, PathLookup(host, opts));
  }

  /** `find_version`: the version of each name, or why it was not found. */
  method FindVersions(host: Host, names: seq<string>)
    returns (out: seq<string>, err: seq<string>)
    ensures |out| + |err| == |names|
    ensures out == Written(Out, BatchTranscript(VersionDriver, names, VersionLookup(host)))
    ensures err == Written(Err, BatchTranscript(VersionDriver, names, VersionLookup(host)))
  {
    out, err := RunBatch(VersionDriver, names, VersionLookup(host));
    StreamsFollowNames(VersionDriver, |names| == 1, names, VersionLookup(host));
  }
}
