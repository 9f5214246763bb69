# pyautotest test runners, modelled in Dafny

pyautotest watches source files and, when one changes, runs the test that
belongs to it. `pyautotest/runner.py` decides which runner class to use and
what command to spawn. This project models that file:

- `from_config` chooses the class. A truthy `test_runner_module` names a
  plugin module whose `get_runner()` supplies the class. Otherwise
  `test_runner_name` is looked up in a closed six-entry table, and a missing
  or unknown name raises `ValueError("Unknown Test Runner: <name>")`.
- A runner is built with a file filter, a test mapper and an optional
  command. `run(filename)` asks the filter, then asks the mapper for the test
  file, then checks that the file exists. Only when both checks pass does it
  spawn `command + [test_name]`.
- The classes differ only in `get_test_name`. FileTestRunner, DocTestRunner
  and PyTestRunner pass the path unchanged. ModuleRunner, and through
  inheritance TestifyRunner and UnitTest2Runner, turn the path into a dotted
  module name.

Files:

- `py_str.dfy` (module `PyStr`) holds the Python string operations that
  `get_test_name` uses: `str.split` with a one-character separator,
  `str.join`, and `s[:stop]`. It also proves that split and join undo each
  other.
- `runner.dfy` (module `Runner`) holds the runner classes, the resolution, the
  construction and the run protocol.

Modelling choices:

- The configuration is a `map<string, Value>`, where `Value` is either `None`
  or a string. `Get` is `dict.get`.
- The plugin class is opaque. The model knows it only as
  `FromModule(moduleName)`.
- A runner instance is a `FileTestRunner` object with `const` fields, because
  `__init__` assigns them once and nothing changes them afterwards. Its `kind`
  field records which subclass was instantiated. `Naming` resolves
  `get_test_name` through `Parent` and `DefinedNaming`, which mirrors the
  class hierarchy.
- The file filter and the test mapper are function-valued fields.
  `os.path.isfile` is a function parameter of `Run`.
- `Run` returns an `Execution`: the questions put to the collaborators, in
  order, and an `Outcome`. The outcome is `Skipped`, `Missing(filename,
  testFilename)` or `Invoked(argv)`, where `argv` is the one vector passed to
  `subprocess.call`.
- The path separator is the POSIX `/` (`Sep`).
- `Run` is a pure function. Calling it twice with the same file and the same
  filesystem answers therefore gives the same execution twice, and nothing is
  memoised.

In two places the model keeps what the code does, not what its names suggest:

- ModuleRunner drops `len('.py') == 3` characters (`runner.py:64`) and does
  not check the extension. Python clamps the slice, so a name shorter than
  three characters gives `""`.
- A runner built without a command uses `command or ['python']`
  (`runner.py:37`), whatever its class, and so does a runner built with an
  empty list. The per-class `default_command` attributes are never read. See
  "## Findings".

## Model

| member | source | states |
|---|---|---|
| `Runner.FromConfig` | pyautotest/runner.py:8-26 | an error is always `ValueError("Unknown Test Runner: " + str(name))`; a built-in result means the name is exactly the key of that class; a plugin result carries the configured module name |
| `Runner.FromConfigByName` | pyautotest/runner.py:23-26 | without a truthy module, resolution succeeds if and only if the name is a string key of the table; success gives that table entry, and failure names the offending value (`None` when absent) |
| `Runner.ModuleBypassesTable` | pyautotest/runner.py:19-21 | with a truthy module, the result is the plugin and is the same for every configuration with that module value, so the name and the table are never consulted |
| `Runner.FromConfigExamples` | pyautotest/runner.py:10-17 | `'file'` gives FileTestRunner, `'unittest'` ModuleRunner, `'doctest'` DocTestRunner; `{}` fails with "Unknown Test Runner: None"; `'bogus'` fails naming it; an empty module string falls through to the name |
| `Runner.TableIsBijective` | pyautotest/runner.py:83-90 | the table has six keys, and every class is registered under exactly one name (`NameOf` is its inverse) |
| `Runner.Naming` | pyautotest/runner.py:56-80 | the inherited naming rule is the dotted-module rule exactly for ModuleRunner, TestifyRunner and UnitTest2Runner, and the path rule exactly for the other three |
| `Runner.InitCommand` | pyautotest/runner.py:34-37 | the command is never empty; a non-empty supplied command is kept as is; an absent or empty one becomes exactly `['python']`; the class plays no part |
| `Runner.FileTestRunner.constructor` | pyautotest/runner.py:34-37 | the runner keeps the given class, filter and mapper, and its command is `InitCommand` of the supplied one |
| `Runner.DefaultCommandIgnored` | pyautotest/runner.py:32-37 | for every class except FileTestRunner, the command built from an absent or empty argument differs from the class's declared `default_command` |
| `Runner.ModuleRunnerDefaultArgv` | pyautotest/runner.py:37-64 | a default-built ModuleRunner spawns `['python', 'pkg.sub.mod']` for `pkg/sub/mod.py`, where the intended construction spawns `['python', '-m', 'unittest', 'pkg.sub.mod']` |
| `Runner.IntendedInitCommand` | pyautotest/runner.py:32-37 | corrected construction: a non-empty supplied command is kept; otherwise the command is the class's own `default_command` |
| `Runner.FileTestRunner.WithClassDefault` | pyautotest/runner.py:34-37 | corrected constructor: the command is `IntendedInitCommand` for the instantiated class |
| `Runner.FileTestRunner.RunTest` | pyautotest/runner.py:53-54 | the argument vector is the runner's command, unchanged, followed by exactly one element, the test name |
| `Runner.ModuleTestNameSpec` | pyautotest/runner.py:63-64 | ModuleRunner's test name has length `max(0, len(p) - 3)`, and each of its characters is `p`'s character at the same index with `/` mapped to `.` |
| `Runner.ModuleTestNameExample` | pyautotest/runner.py:63-64 | `pkg/sub/mod.py` becomes `pkg.sub.mod` |
| `Runner.GetTestNameByKind` | pyautotest/runner.py:56-80 | FileTestRunner, DocTestRunner and PyTestRunner use the path itself; ModuleRunner, TestifyRunner and UnitTest2Runner use the dotted name described by `ModuleTestNameSpec` |
| `Runner.RunSkipsUntestable` | pyautotest/runner.py:39-42 | when the filter rejects the file, the only question asked is the filter's, so the mapper, the existence check and the spawn are never reached |
| `Runner.RunMissingTest` | pyautotest/runner.py:44-48 | when the mapped test file does not exist, the run ends after the existence check, reports both file names and spawns nothing |
| `Runner.RunInvokes` | pyautotest/runner.py:39-54 | a process is spawned if and only if both checks pass; it is spawned once, with argv `command + [get_test_name(test_filename)]`, and the command prefix is unchanged |
| `Runner.RunQueryOrder` | pyautotest/runner.py:39-51 | questions always come in the order filter, mapper, existence check, and each one is asked only if the previous answer allowed it |
| `Runner.RunDefaultCommand` | pyautotest/runner.py:37-54 | as written, a runner built without a command spawns exactly `['python', test_name]`, whatever its class |
| `Runner.RunIntendedDefaultCommand` | pyautotest/runner.py:32-54 | with the corrected construction, such a runner spawns its class's `default_command` followed by the test name |
| `PyStr.Split` | pyautotest/runner.py:64 | `str.split` gives at least one piece, and no piece contains the separator |
| `PyStr.Replace` | pyautotest/runner.py:64 | the result has the same length as the input, and at each index the target character is replaced and every other character is kept |
| `PyStr.SliceTo` | pyautotest/runner.py:64 | `s[:stop]` is a prefix of `s`; its length is `stop` clamped to `len(s)`, or `len(s) + stop` clamped at 0 for a negative stop |
| `PyStr.JoinSplitIsReplace` | pyautotest/runner.py:64 | `d.join(s.split(sep))` equals `s` with every `sep` replaced by `d` |
| `PyStr.JoinSplitRoundTrip` | pyautotest/runner.py:64 | `sep.join(s.split(sep)) == s` |
| `PyStr.SplitJoinRoundTrip` | pyautotest/runner.py:64 | `sep.join(parts).split(sep) == parts` for a non-empty list of pieces that do not contain the separator |

## Left out

- `subprocess.call` (`runner.py:54`) is not modelled as a process. The model keeps only the argument vector it receives. The exit status and launch failures are not modelled.
- `log.info` and `log.warn` (`runner.py:41`, `46`) are logging side effects and are not modelled. The `Missing` outcome still carries both file names that the warning reports.
- `os.path.isfile` (`runner.py:45`) is a filesystem query. It is the abstract parameter `isFile` of `Run`.
- `importutil.import_module` and `mod.get_runner()` (`runner.py:20-21`) load a module dynamically, through a helper that is not part of this model. The loaded class is the opaque `FromModule(moduleName)`, and import errors are not modelled.
- The behaviour of `file_filter` and `test_mapper` is not modelled. They are injected collaborators whose code is not part of this model, so they are uninterpreted function fields.
- Configuration values other than `None` and strings are not modelled, for example a list as the runner name or a truthy non-string module. Neither is Python's formatting of them.
- Commands that are truthy values other than a list are not modelled.
- Windows path separators are not modelled. `os.path.sep` is fixed to `/`.

## Findings

| source | as written | input that shows it | evidently intended | confidence | as-written member | corrected member |
|---|---|---|---|---|---|---|
| pyautotest/runner.py:37 | a missing or empty command falls back to the literal `['python']`, so the `default_command` of every subclass (lines 61, 68, 72, 76, 80) is never read | `ModuleRunner(filter, mapper)` running an existing `pkg/sub/mod.py` spawns `['python', 'pkg.sub.mod']`, which asks Python to open a file named `pkg.sub.mod` instead of running the unittest module | fall back to the class's own default, `command or self.default_command`, giving `['python', '-m', 'unittest', 'pkg.sub.mod']` | medium, not executed | `Runner.DefaultCommandIgnored` | `Runner.IntendedInitCommand` |

As the table says, the main model keeps the code's behaviour: the unnamed
constructor uses `InitCommand`. The corrected behaviour is available through
`FileTestRunner.WithClassDefault`. Every run-protocol lemma is stated for any
runner object, so each one holds for runners built by either constructor.
`RunIntendedDefaultCommand` proves what the correction changes.
