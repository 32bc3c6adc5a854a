# pywhich, modelled in Dafny

pywhich tells where a Python module lives on disk, or which version of it is
installed. For each module name on its command line it imports the module,
reads its `__file__` (or finds its version), applies up to four path options,
and writes one report line: the result on standard output, or the reason on
standard error.

This project models the decision logic of `pywhich.py` as pure Dafny
functions over strings, booleans and the answers of the host:

- `strings.dfy` (module `Strings`): prefix and suffix tests, `rfind` and
  `rstrip` on one character, and a forward search used to read an import
  failure text back (it reports absence as the string's length, not -1).
- `posixpath.dfy` (module `PosixPath`): `os.path.basename` and
  `os.path.dirname`. A POSIX host is assumed. A path is split just after its
  last `/`. The base name is the tail. The directory is the head without its
  trailing `/`s, unless the head is made of `/`s only (CPython's `posixpath`).
- `locator.dfy` (module `Locator`): `identify_module`, the
  `identify_filepath` pipeline, and the single-name part of `find_version`.
  The pipeline is also given as a plan of steps, and the two are proved equal.
- `report.dfy` (module `Report`): the batch loops of `identify_modules` and
  `find_version`, their output templates, and the transcript of lines they
  write.
- `cli.dfy` (module `Cli`): the verbosity count of `-v`/`-q`, its clamp into
  the five logging levels, and the dispatch and exit status of `main`.

The import system (`__import__`, `sys.modules`), the existence test
`os.access(path, os.F_OK)`, `os.path.realpath` and the `pkg_resources`
registry are the four function fields of a `Host` value. Every lookup is a
total function of the host, the name and the options. A line of output is a
string without its newline. Standard output and standard error are two
sequences of lines, and their interleaving is a `seq<Line>` transcript.

The default verbosity is 2, which selects `logging.WARNING`.

## Model

| member | source | states |
|---|---|---|
| `PosixPath.Basename` | pywhich.py:74-75 | the base name holds no `/` and is a suffix of the path |
| `PosixPath.Dirname` | pywhich.py:78 | the directory is a prefix of the path; a head made only of `/`s (or empty) is the directory itself, so `/x` gives `/` and `//x` gives `//`; any other head loses exactly its trailing run of `/`s, so `a//x` gives `a`; a path without `/` has the empty directory |
| `PosixPath.DirnameAtRoot` | pywhich.py:74-78 | a `/`-free name directly under the root has base name the name and directory `/` |
| `PosixPath.SplitIsUnique` | pywhich.py:74-78 | the head/base-name split is the only split of the path into a `/`-free tail and a head that is empty or ends in `/` |
| `PosixPath.DirnameOfJoin` | pywhich.py:74-78 | for a directory `d` not ending in `/` and a `/`-free name `n`, the path `d/n` has base name `n` and directory `d` |
| `PosixPath.DirnameShortens` | pywhich.py:74-78 | a path with a non-empty base name is strictly longer than its directory, so taking the directory changes it |
| `Locator.IdentifyModule` | pywhich.py:16-30 | the lookup succeeds exactly when the import does, giving the imported module; a failed import gives `ModuleNotFound("<type name>: <message>")` |
| `Locator.ImportFailureRoundTrip` | pywhich.py:25-27 | when the exception type name has no colon, splitting the failure text at its first colon recovers the type name and the message |
| `Locator.FindSource` | pywhich.py:62-69 | the path changes if and only if it ends in `.pyc` or `.pyo` and the path minus its last character exists; the new path is then the old one minus its last character and ends in `.py` |
| `Locator.IdentifyFilepath` | pywhich.py:55-80 | a path is found exactly when the import succeeds and the module has a `__file__`; an import failure gives the wrapped type-and-message text, a missing `__file__` gives the no-file message, and a found path is the normalised `__file__` |
| `Locator.PlanIsOrdered` | pywhich.py:62-80 | the enabled steps run in the order source mapping, symlink resolution, directory; each is enabled by its own option; there is at most one directory step, and it is unconditional exactly when `show_directory` is set |
| `Locator.NormalizePath` | pywhich.py:62-80 | the result is the path after source mapping and symlink resolution or its directory, a prefix of it; it is the directory whenever `show_directory` or the `hide_init` condition holds, and differs from the resolved path only then |
| `Locator.NormalizeFollowsPlan` | pywhich.py:62-80 | the straight-line path pipeline gives the same path as running the planned steps one after another |
| `Locator.NoOptionsKeepsFile` | pywhich.py:55-80 | with every option off, the result is exactly the module's `__file__` |
| `Locator.SingleOptionResults` | pywhich.py:62-72 | with only `real_path` set the result is `realpath(__file__)`; with only `find_source` set it is the source-mapped `__file__` |
| `Locator.ShowDirectoryGivesDirname` | pywhich.py:71-78 | with `show_directory` set, the result is the directory of the path after source mapping and symlink resolution, taken once even when the `hide_init` condition also holds |
| `Locator.HideInitIff` | pywhich.py:74-78 | with `hide_init` set and `show_directory` unset, the path changes if and only if its base name starts with `__init__.`, and then it becomes its directory |
| `Locator.DirectoryTwiceDiffers` | pywhich.py:74-78 | for every package initializer `d/pkg/__init__.…` (with `d` not ending in `/` and `pkg` a non-empty name), its base name meets the `hide_init` test, taking the directory once gives `d/pkg`, and taking it twice would give `d`, which differs, so the single directory step is observable |
| `Locator.FindVersion` | pywhich.py:124-138 | a registry hit's version is the answer; without one, a version is found exactly when the import succeeds and the module has `__version__`; a module without it gives `module has no __version__`, and an import failure gives the wrapped text |
| `Locator.UnimportableFailsBoth` | pywhich.py:128-132 | a name that cannot be imported and has no registry entry fails both the path lookup and the version lookup, with the same wrapped failure text |
| `Locator.RegistryHitIgnoresModule` | pywhich.py:128-138 | on a registry hit, replacing the import system changes nothing: the module is not consulted |
| `Locator.FallbackUsesImportOnly` | pywhich.py:128-135 | without a registry hit, two hosts that import the name to the same outcome give the same version lookup |
| `Report.SuccessText` | pywhich.py:90-94 | with one name the success line is the bare value; with several it is `name: ` followed by the value |
| `Report.ErrorText` | pywhich.py:90-95 | the error line ends with `not found (<message>)`; with several names it starts with `name: `; with one name it starts with `Module '<name>' ` for the path driver and `Distribution/module '<name>' ` for the version driver |
| `Report.ReportLine` | pywhich.py:97-111 | a lookup's line goes to standard output exactly when the lookup succeeded |
| `Report.ReportLineShape` | pywhich.py:93-111 | with several names the exact line is `name: <value>` on success and `name: not found (<message>)` on failure |
| `Report.OneNameLineShape` | pywhich.py:90-92 | with one name the exact line is the bare value on success, `Module '<name>' not found (<message>)` for a failed path lookup, and `Distribution/module '<name>' not found (<message>)` for a failed version lookup |
| `Report.Transcript` | pywhich.py:97-111 | there is exactly one report write per name, and write `i` is the report of the lookup of name `i` |
| `Report.StreamsFollowNames` | pywhich.py:97-111 | pywhich's own writes to standard output are the success lines of the succeeding names, and its own writes to standard error the error lines of the failing names, each in argument order; together they are one write per name |
| `Report.LineDependsOnOwnLookup` | pywhich.py:97-106 | the line of name `j` depends only on the lookup of name `j`, so a failure of any other name leaves it unchanged |
| `Report.SingleNameOutput` | pywhich.py:90-92 | with one name, pywhich's own report of a success is just the value, with no report write on standard error; its report of a failure is only the driver's one-name error line |
| `Report.FailureThenSuccess` | pywhich.py:93-111 | with a failing name followed by a found one, standard error holds exactly `bad: not found (<message>)` and standard output exactly `good: <value>` |
| `Report.RunBatch` | pywhich.py:97-111 | the loop's two streams are the standard-output and standard-error projections of the transcript |
| `Report.IdentifyModules` | pywhich.py:83-111 | the path driver makes one report write per name in all, and its streams are those of the path-lookup transcript |
| `Report.FindVersions` | pywhich.py:114-151 | the version driver makes one report write per name in all, and its streams are those of the version-lookup transcript |
| `Cli.Verbosity` | pywhich.py:165-170 | the verbosity is 2 plus the number of `-v` flags minus the number of `-q` flags, in any order |
| `Cli.ClampVerbosity` | pywhich.py:185 | the index lies in `0..4`, equals the verbosity when that is in range, and is 0 below it and 4 above it |
| `Cli.LogLevel` | pywhich.py:185-188 | the chosen level is one of the five table entries, namely CRITICAL (50) minus 10 for each step of the clamped verbosity |
| `Cli.MoreVerboseLogsMore` | pywhich.py:185-188 | a higher verbosity never gives a higher logging threshold |
| `Cli.FlagLevels` | pywhich.py:165-188 | no flags give WARNING, `-v` gives INFO, `-v -v` gives DEBUG, `-q` gives ERROR, `-v -q` gives WARNING, and `-v -v -q` gives INFO |
| `Cli.Run` | pywhich.py:190-197 | `--ver` runs the version driver and otherwise the path driver with the four options; one report write per name is made, not counting the debug log lines that the level lets through or output from imported modules; the exit status is 0 even when lookups fail |

## Left out

- `__import__` and `sys.modules`: a foreign runtime call. They become one oracle that gives a module record (optional `__file__`, optional `__version__`) or an exception type name and message.
- `os.access` and `os.path.realpath`: the filesystem and symlinks are not modelled. The first is an uninterpreted existence predicate, the second an opaque function.
- `pkg_resources.get_distribution`: an external registry. It becomes an optional-version oracle, where "no version" stands for `DistributionNotFound`.
- Exceptions that are not subclasses of `Exception` (such as `KeyboardInterrupt`) escape the import wrapper, and registry errors other than `DistributionNotFound` escape `find_version`. Both abort the run and are not modelled.
- A `__file__` that is present but `None`, and a non-string `__version__` (printed with `str`), are not modelled. Both attributes are optional strings.
- `os.path.basename` and `os.path.dirname` are modelled for POSIX paths only; the Windows path rules are not modelled.
- The `OptionParser` set-up, the `-q` callback wiring and the `logging` configuration are CLI and library glue. Only the verbosity arithmetic, the clamp and the level table are modelled. `main` hands its `argv` to nothing, because `parse_args()` reads `sys.argv` itself; the model starts from already-parsed options.
- Cli.Run: the `log.debug` messages of the path pipeline (pywhich.py:63, 68, 76) are not modelled. When the computed `level` is DEBUG (at least two more `-v` than `-q`), `logging.basicConfig()` sends them to standard error as extra lines, so the real standard error then holds more than the per-name report lines that `err` models.
- Report.FindVersions: `import pkg_resources` (pywhich.py:124) runs before the loop. Where it is not installed the `ImportError` is not caught, no line is written for any name and `main` aborts; the total registry oracle cannot express this.
- Lookups are modelled as independent of each other: the import oracle is a fixed function of the name. A real import can change `sys.modules` and `sys.path` for the names after it, which the model does not capture.
- The writes to `sys.stdout` and `sys.stderr` become appends to two sequences of lines. The trailing newline is left out. A line's text may be any string: an exception message (pywhich.py:27) or a `__file__` that contains a newline spans several physical lines on the terminal, while the model counts one write per name.
- Report.StreamsFollowNames: output written by the imported modules themselves is not modelled. `__import__` (pywhich.py:24) runs a module's top-level code, which can print to the same standard output and standard error (importing `this` prints a text before the path), and warnings raised during an import, or during `import pkg_resources` (pywhich.py:124), are printed on standard error. `out` and `err` hold only pywhich's own report writes.
- `setup.py` is packaging metadata with no behaviour.
