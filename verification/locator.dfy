/** The single-name lookups of pywhich: importing a module by name,
    locating its file with the four path options, and resolving its version.

    The import system, `os.access`, `os.path.realpath` and the
    `pkg_resources` distribution registry are not modelled; they are the
    fields of a `Host`, and every lookup is a total function of the host,
    the module name and the options. */
module Locator {
  import opened Strings
  import opened PosixPath

  datatype Option<T> = None | Some(value: T)

  /** What the import system knows about a loaded module: its `__file__`
      and `__version__` attributes, either of which may be missing. */
  datatype Module = Module(file: Option<string>, version: Option<string>)

  /** Outcome of `__import__(name)` followed by `sys.modules[name]`: the
      module, or the type name and text of the exception raised. */
  datatype ImportOutcome =
    | Imported(loaded: Module)
    | ImportFailed(typeName: string, message: string)

  /** The services pywhich consults: the import system, the existence test
      `os.access(path, os.F_OK)`, symlink resolution `os.path.realpath`, and
      the version of an installed distribution (None when
      `pkg_resources.get_distribution` reports `DistributionNotFound`). */
  datatype Host = Host(
    importModule: string -> ImportOutcome,
    fileExists: string -> bool,
    realpath: string -> string,
    distribution: string -> Option<string>)

  /** A lookup either succeeds or raises `ModuleNotFound` with a message. */
  datatype Lookup<T> = Found(value: T) | ModuleNotFound(msg: string)

  /** The keyword options of `identify_filepath`; an omitted option is off. */
  datatype Options = Options(realPath: bool, showDirectory: bool, findSource: bool, hideInit: bool)

  const NoOptions := Options(false, false, false, false)

  const NoFileMessage := "module has no '__file__' attribute; is it a built-in or C module?"
  const NoVersionMessage := "module has no __version__"

  /** The initializer file name stem that marks a package's `__init__` module. */
  const InitPrefix := "__init__."

  // ---------------------------------------------------------------------------
  // identify_module

  /** The `ModuleNotFound` text for an import failure: "<type name>: <message>". */
  function ImportFailureText(typeName: string, message: string): string {
    typeName + ": " + message
  }

  /** Reads an import failure text back into its exception type name and
      message, splitting at the first colon. */
  function ParseImportFailure(text: string): (string, string) {
    var i := IndexOf(text, ':');
    if i + 2 <= |text| then (text[..i], text[i + 2..]) else (text, "")
  }

  /** Exception type names are identifiers, so they hold no colon; then the
      failure text keeps both the type name and the message recoverably. */
  lemma {:induction false} ImportFailureRoundTrip(typeName: string, message: string)
    requires ':' !in typeName
    ensures ParseImportFailure(ImportFailureText(typeName, message)) == (typeName, message)
  {
    var text := ImportFailureText(typeName, message);
    assert text[|typeName|] == ':';
    assert forall j :: 0 <= j < |typeName| ==> text[j] == typeName[j];
    assert IndexOf(text, ':') == |typeName|;
    assert text[..|typeName|] == typeName;
    assert text[|typeName| + 2..] == message;
  }

  /** Imports the module named `name`; any exception during the import is
      re-raised as `ModuleNotFound` carrying its type name and message. */
  function IdentifyModule(host: Host, name: string): (r: Lookup<Module>)
    ensures r.Found? <==> host.importModule(name).Imported?
    ensures r.Found? ==> r.value == host.importModule(name).loaded
    ensures r.ModuleNotFound? ==>
      r.msg == ImportFailureText(host.importModule(name).typeName, host.importModule(name).message)
  {
    match host.importModule(name)
    case Imported(m) => Found(m)
    case ImportFailed(t, msg) => ModuleNotFound(ImportFailureText(t, msg))
  }

  // ---------------------------------------------------------------------------
  // identify_filepath: the path pipeline

  /** A compiled bytecode file name: ends in `.pyc` or `.pyo`. */
  predicate IsCompiled(path: string) {
    EndsWith(path, ".pyc") || EndsWith(path, ".pyo")
  }

  /** The `find_source` step: a `.pyc`/`.pyo` path becomes its `.py` sibling
      (the path minus its last character) when that sibling exists; every
      other path is kept. */
  function FindSource(path: string, fileExists: string -> bool): (r: string)
    ensures r != path <==> IsCompiled(path) && fileExists(path[..|path| - 1])
    ensures r != path ==> r + [path[|path| - 1]] == path && EndsWith(r, ".py")
  {
    if IsCompiled(path) then
      var source := path[..|path| - 1];
      assert |source| < |path|;
      assert source[|source| - 3..] == path[|path| - 4..|path| - 1];
      if fileExists(source) then source else path
    else path
  }

  /** The directory step fires when `show_directory` is set, or when
      `hide_init` is set and the base name starts with `__init__.`. */
  predicate CollapsesToDirectory(path: string, opts: Options) {
    opts.showDirectory || (opts.hideInit && StartsWith(Basename(path), InitPrefix))
  }

  /** The path after the source mapping and symlink resolution steps, which
      is the path the directory step examines. */
  function Resolved(file: string, opts: Options, host: Host): string {
    var source := if opts.findSource then FindSource(file, host.fileExists) else file;
    if opts.realPath then host.realpath(source) else source
  }

  /** The three steps of `identify_filepath` applied to a `__file__` string.
      The directory step only ever cuts the resolved path back to its
      directory, once, and does so whenever its condition holds. */
  function NormalizePath(file: string, opts: Options, host: Host): (r: string)
    ensures StartsWith(Resolved(file, opts, host), r)
    ensures r == Resolved(file, opts, host) || r == Dirname(Resolved(file, opts, host))
    ensures CollapsesToDirectory(Resolved(file, opts, host), opts) ==> r == Dirname(Resolved(file, opts, host))
    ensures r != Resolved(file, opts, host) ==> CollapsesToDirectory(Resolved(file, opts, host), opts)
  {
    var path := Resolved(file, opts, host);
    if CollapsesToDirectory(path, opts) then Dirname(path) else path
  }

  /** Locates the file of module `name`: a failed import or a missing
      `__file__` is `ModuleNotFound`; otherwise `__file__` goes through the
      path pipeline. */
  function IdentifyFilepath(host: Host, name: string, opts: Options): (r: Lookup<string>)
    ensures r.Found? <==>
      host.importModule(name).Imported? && host.importModule(name).loaded.file.Some?
    ensures host.importModule(name).ImportFailed? ==>
      r == ModuleNotFound(ImportFailureText(host.importModule(name).typeName, host.importModule(name).message))
    ensures host.importModule(name).Imported? && host.importModule(name).loaded.file.None? ==>
      r == ModuleNotFound(NoFileMessage)
    ensures r.Found? ==> r.value == NormalizePath(host.importModule(name).loaded.file.value, opts, host)
  {
    match IdentifyModule(host, name)
    case ModuleNotFound(msg) => ModuleNotFound(msg)
    case Found(m) =>
      match m.file
      case None => ModuleNotFound(NoFileMessage)
      case Some(file) => Found(NormalizePath(file, opts, host))
  }

  // ---------------------------------------------------------------------------
  // The pipeline as a plan of steps

  /** A step of the path pipeline. `ToDirectory` always takes the directory;
      `ToDirectoryIfInit` takes it only for an `__init__.` base name. */
  datatype Step = MapToSource | ResolveLinks | ToDirectory | ToDirectoryIfInit

  /** Position of a step in the pipeline's fixed order. */
  function Rank(s: Step): nat {
    match s
    case MapToSource => 0
    case ResolveLinks => 1
    case ToDirectory => 2
    case ToDirectoryIfInit => 2
  }

  function ApplyStep(s: Step, path: string, host: Host): string {
    match s
    case MapToSource => FindSource(path, host.fileExists)
    case ResolveLinks => host.realpath(path)
    case ToDirectory => Dirname(path)
    case ToDirectoryIfInit => if StartsWith(Basename(path), InitPrefix) then Dirname(path) else path
  }

  function RunSteps(steps: seq<Step>, path: string, host: Host): string
    decreases |steps|
  {
    if |steps| == 0 then path else RunSteps(steps[1..], ApplyStep(steps[0], path, host), host)
  }

  /** The steps the options enable. */
  function Plan(opts: Options): seq<Step> {
    (if opts.findSource then [MapToSource] else [])
    + (if opts.realPath then [ResolveLinks] else [])
    + (if opts.showDirectory then [ToDirectory] else if opts.hideInit then [ToDirectoryIfInit] else [])
  }

  /** The plan lists each enabled step once, in the order source mapping,
      symlink resolution, directory; it holds at most one directory step,
      and one exactly when `show_directory` or `hide_init` is set. */
  lemma PlanIsOrdered(opts: Options)
    ensures forall i, j :: 0 <= i < j < |Plan(opts)| ==> Rank(Plan(opts)[i]) < Rank(Plan(opts)[j])
    ensures MapToSource in Plan(opts) <==> opts.findSource
    ensures ResolveLinks in Plan(opts) <==> opts.realPath
    ensures ToDirectory in Plan(opts) <==> opts.showDirectory
    ensures ToDirectoryIfInit in Plan(opts) <==> opts.hideInit && !opts.showDirectory
  {
  }

  /** The straight-line pipeline is the same as running the plan. */
  lemma NormalizeFollowsPlan(file: string, opts: Options, host: Host)
    ensures NormalizePath(file, opts, host) == RunSteps(Plan(opts), file, host)
  {
    var s0 := if opts.findSource then FindSource(file, host.fileExists) else file;
    var s1 := if opts.realPath then host.realpath(s0) else s0;
    var a := if opts.findSource then [MapToSource] else [];
    var b := if opts.realPath then [ResolveLinks] else [];
    var c := if opts.showDirectory then [ToDirectory] else if opts.hideInit then [ToDirectoryIfInit] else [];
    RunStepsAppend(a, b + c, file, host);
    RunStepsAppend(b, c, s0, host);
    assert a + (b + c) == Plan(opts);
  }

  lemma {:induction false} RunStepsAppend(xs: seq<Step>, ys: seq<Step>, path: string, host: Host)
    ensures RunSteps(xs + ys, path, host) == RunSteps(ys, RunSteps(xs, path, host), host)
    decreases |xs|
  {
    if |xs| > 0 {
      assert (xs + ys)[1..] == xs[1..] + ys;
      RunStepsAppend(xs[1..], ys, ApplyStep(xs[0], path, host), host);
    } else {
      assert xs + ys == ys;
    }
  }

  // ---------------------------------------------------------------------------
  // Properties of identify_filepath

  /** With every option off the result is exactly the module's `__file__`. */
  lemma NoOptionsKeepsFile(host: Host, name: string, file: string)
    requires host.importModule(name).Imported?
    requires host.importModule(name).loaded.file == Some(file)
    ensures IdentifyFilepath(host, name, NoOptions) == Found(file)
  {
  }

  /** With only `real_path` set the result is the resolved `__file__`, and
      with only `find_source` set it is the source-mapped `__file__`. */
  lemma SingleOptionResults(host: Host, name: string, file: string)
    requires host.importModule(name).Imported?
    requires host.importModule(name).loaded.file == Some(file)
    ensures IdentifyFilepath(host, name, NoOptions.(realPath := true)) == Found(host.realpath(file))
    ensures IdentifyFilepath(host, name, NoOptions.(findSource := true)) == Found(FindSource(file, host.fileExists))
  {
  }

  /** With `show_directory` set the result is the directory of the path
      after source mapping and symlink resolution, whatever `hide_init` is;
      when the `hide_init` condition holds as well, the directory is still
      taken only once. */
  lemma ShowDirectoryGivesDirname(file: string, opts: Options, host: Host)
    requires opts.showDirectory
    ensures NormalizePath(file, opts, host) == Dirname(Resolved(file, opts, host))
  {
  }

  /** With `hide_init` set and `show_directory` unset, the path changes if and
      only if its base name starts with `__init__.`, and then becomes its
      directory. */
  lemma HideInitIff(file: string, opts: Options, host: Host)
    requires opts.hideInit && !opts.showDirectory
    ensures var path := Resolved(file, opts, host);
      (NormalizePath(file, opts, host) != path <==> StartsWith(Basename(path), InitPrefix))
      && (StartsWith(Basename(path), InitPrefix) ==> NormalizePath(file, opts, host) == Dirname(path))
  {
    var path := Resolved(file, opts, host);
    if StartsWith(Basename(path), InitPrefix) {
      DirnameShortens(path);
    }
  }

  /** For the initializer `d/pkg/<init file>` of a package `pkg` in a
      directory `d`, taking the directory once gives `d/pkg` and taking it
      twice would give `d`, so a single directory step is observable. */
  lemma {:induction false} DirectoryTwiceDiffers(d: string, pkg: string, init: string)
    requires 0 < |d| && d[|d| - 1] != Sep
    requires 0 < |pkg| && Sep !in pkg
    requires Sep !in init && StartsWith(init, InitPrefix)
    ensures StartsWith(Basename(d + [Sep] + pkg + [Sep] + init), InitPrefix)
    ensures Dirname(d + [Sep] + pkg + [Sep] + init) == d + [Sep] + pkg
    ensures Dirname(Dirname(d + [Sep] + pkg + [Sep] + init)) == d
    ensures Dirname(Dirname(d + [Sep] + pkg + [Sep] + init)) != Dirname(d + [Sep] + pkg + [Sep] + init)
  {
    var dir := d + [Sep] + pkg;
    assert dir[|dir| - 1] == pkg[|pkg| - 1];
    DirnameOfJoin(dir, init);
    DirnameOfJoin(d, pkg);
  }

  // ---------------------------------------------------------------------------
  // find_version: one name

  /** The version of `name`: a registry hit wins; otherwise the module is
      imported and its `__version__` used; otherwise `ModuleNotFound`. */
  function FindVersion(host: Host, name: string): (r: Lookup<string>)
    ensures host.distribution(name).Some? ==> r == Found(host.distribution(name).value)
    ensures host.distribution(name).None? ==>
      (r.Found? <==> host.importModule(name).Imported? && host.importModule(name).loaded.version.Some?)
    ensures host.distribution(name).None? && host.importModule(name).Imported? ==>
      r == (match host.importModule(name).loaded.version
            case Some(v) => Found(v)
            case None => ModuleNotFound(NoVersionMessage))
    ensures host.distribution(name).None? && host.importModule(name).ImportFailed? ==>
      r == ModuleNotFound(ImportFailureText(host.importModule(name).typeName, host.importModule(name).message))
  {
    match host.distribution(name)
    case Some(v) => Found(v)
    case None =>
      match IdentifyModule(host, name)
      case ModuleNotFound(msg) => ModuleNotFound(msg)
      case Found(m) =>
        match m.version
        case None => ModuleNotFound(NoVersionMessage)
        case Some(v) => Found(v)
  }

  /** A name that cannot be imported and has no registry entry fails both
      lookups, with the same wrapped import failure text. */
  lemma UnimportableFailsBoth(host: Host, name: string, opts: Options)
    requires host.importModule(name).ImportFailed? && host.distribution(name).None?
    ensures IdentifyFilepath(host, name, opts).ModuleNotFound?
    ensures FindVersion(host, name) == IdentifyFilepath(host, name, opts)
  {
  }

  /** A registry hit is used without consulting the import system: any other
      import system gives the same answer. */
  lemma RegistryHitIgnoresModule(host: Host, name: string, other: string -> ImportOutcome)
    requires host.distribution(name).Some?
    ensures FindVersion(host.(importModule := other), name) == FindVersion(host, name)
  {
  }

  /** Without a registry hit the version depends on nothing but the import
      outcome of the name itself. */
  lemma FallbackUsesImportOnly(host: Host, name: string, other: Host)
    requires host.distribution(name).None? && other.distribution(name).None?
    requires host.importModule(name) == other.importModule(name)
    ensures FindVersion(host, name) == FindVersion(other, name)
  {
  }
}
