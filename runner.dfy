/** The test runners of pyautotest: resolving a runner class from the
    configuration, building a runner, and the protocol by which a runner turns
    a changed source file into one test invocation. */
module Runner {
  import opened PyStr

  // ---------------------------------------------------------------------------
  // The runner classes and their inheritance
  // ---------------------------------------------------------------------------

  /** The six built-in runner classes: FileTestRunner, ModuleRunner,
      DocTestRunner, TestifyRunner, UnitTest2Runner and PyTestRunner. */
  datatype RunnerKind = File | Module | DocTest | Testify | UnitTest2 | PyTest

  datatype Option<T> = None | Some(value: T)

  /** The base class each runner class derives from; FileTestRunner is the root. */
  function Parent(k: RunnerKind): Option<RunnerKind>
  {
    match k
    case File => None
    case Module => Some(File)
    case Testify => Some(Module)
    case UnitTest2 => Some(Module)
    case DocTest => Some(File)
    case PyTest => Some(File)
  }

  /** Distance from FileTestRunner in the class hierarchy. */
  function Depth(k: RunnerKind): nat
  {
    match Parent(k)
    case None => 0
    case Some(p) => 1 + (if p == File then 0 else 1)
  }

  /** How a class derives the test name from a test file path. */
  datatype NamingRule =
    | FilePath      // the path itself
    | DottedModule  // separators become '.', the last three characters are dropped

  /** The rule a class defines in its own body, if it overrides `get_test_name`;
      only FileTestRunner and ModuleRunner do. */
  function DefinedNaming(k: RunnerKind): Option<NamingRule>
  {
    match k
    case File => Some(FilePath)
    case Module => Some(DottedModule)
    case _ => None
  }

  /** The rule a class uses: its own definition, else the one it inherits. */
  function Naming(k: RunnerKind): (rule: NamingRule)
    ensures rule == DottedModule <==> k == Module || k == Testify || k == UnitTest2
    ensures rule == FilePath <==> k == File || k == DocTest || k == PyTest
    decreases Depth(k)
  {
    match DefinedNaming(k)
    case Some(rule) => rule
    case None => Naming(Parent(k).value)
  }

  /** The `default_command` class attribute of each class. Construction never
      reads it (see InitCommand); it is kept for the comparison in
      DefaultCommandIgnored and for the corrected IntendedInitCommand. */
  function DeclaredDefaultCommand(k: RunnerKind): seq<string>
  {
    match k
    case File => ["python"]
    case Module => ["python", "-m", "unittest"]
    case Testify => ["testify", "-v", "--summary"]
    case UnitTest2 => ["unit2", "-v"]
    case DocTest => ["python", "-m", "doctest"]
    case PyTest => ["py.test"]
  }

  // ---------------------------------------------------------------------------
  // Resolution from the configuration
  // ---------------------------------------------------------------------------

  /** The closed table from runner name to runner class. */
  const TestRunnerMap: map<string, RunnerKind> := map[
    "file" := File,
    "unittest" := Module,
    "doctest" := DocTest,
    "testify" := Testify,
    "unittest2" := UnitTest2,
    "pytest" := PyTest
  ]

  /** The table key under which a class is registered. */
  function NameOf(k: RunnerKind): string
  {
    match k
    case File => "file"
    case Module => "unittest"
    case DocTest => "doctest"
    case Testify => "testify"
    case UnitTest2 => "unittest2"
    case PyTest => "pytest"
  }

  /** A configuration value: Python's `None` or a string. */
  datatype Value = NoneValue | Str(s: string)

  /** The configuration dictionary. */
  type Config = map<string, Value>

  /** `config.get(key)`: None when the key is absent. */
  function Get(config: Config, key: string): Value
  {
    if key in config then config[key] else NoneValue
  }

  /** Python truthiness: None and the empty string are false. */
  predicate Truthy(v: Value)
  {
    v.Str? && v.s != ""
  }

  /** `"%s" % v`. */
  function Format(v: Value): string
  {
    match v
    case NoneValue => "None"
    case Str(s) => s
  }

  /** What `from_config` returns: a built-in class, or the class that the
      `get_runner()` of a dynamically imported module returns, which the model
      knows only by the module's name. */
  datatype RunnerClass = BuiltIn(kind: RunnerKind) | FromModule(moduleName: string)

  datatype Error = ValueError(message: string)

  datatype Result<T> = Ok(value: T) | Err(error: Error)

  const ModuleKey := "test_runner_module"
  const NameKey := "test_runner_name"

  /** `from_config`: a truthy `test_runner_module` wins; otherwise
      `test_runner_name` is looked up in the table, and any value that is not
      one of its keys (None included) raises ValueError. */
  function FromConfig(config: Config): (r: Result<RunnerClass>)
    ensures r.Err? ==> r.error == ValueError("Unknown Test Runner: " + Format(Get(config, NameKey)))
    ensures r.Ok? && r.value.BuiltIn? ==> Get(config, NameKey) == Str(NameOf(r.value.kind))
    ensures r.Ok? && r.value.FromModule? ==> Get(config, ModuleKey) == Str(r.value.moduleName)
  {
    var pluginModule := Get(config, ModuleKey);
    if Truthy(pluginModule) then Ok(FromModule(pluginModule.s))
    else
      var name := Get(config, NameKey);
      if name.Str? && name.s in TestRunnerMap then Ok(BuiltIn(TestRunnerMap[name.s]))
      else Err(ValueError("Unknown Test Runner: " + Format(name)))
  }

  // ---------------------------------------------------------------------------
  // Construction
  // ---------------------------------------------------------------------------

  /** `command or ['python']`: an absent or empty command falls back to
      `['python']`, whatever the class. */
  function InitCommand(command: Option<seq<string>>): (c: seq<string>)
    ensures c != []
    ensures command.Some? && command.value != [] ==> c == command.value
    ensures command.None? || command.value == [] ==> c == ["python"]
  {
    if command.Some? && command.value != [] then command.value else ["python"]
  }

  /** What construction was evidently meant to do: fall back to the class's own
      `default_command`. */
  function IntendedInitCommand(k: RunnerKind, command: Option<seq<string>>): (c: seq<string>)
    ensures c != []
    ensures command.Some? && command.value != [] ==> c == command.value
    ensures command.None? || command.value == [] ==> c == DeclaredDefaultCommand(k)
  {
    if command.Some? && command.value != [] then command.value else DeclaredDefaultCommand(k)
  }

  // ---------------------------------------------------------------------------
  // Running
  // ---------------------------------------------------------------------------

  /** A question the runner puts to a collaborator. */
  datatype Query =
    | ShouldTest(filename: string)       // file_filter.should_test
    | GetTestFilename(filename: string)  // test_mapper.get_test_filename
    | IsFile(path: string)               // os.path.isfile

  /** How one call of `run` ends. */
  datatype Outcome =
    | Skipped                                          // the filter rejected the file
    | Missing(filename: string, testFilename: string)  // no test file at the mapped path
    | Invoked(argv: seq<string>)                       // the one process spawned

  /** The queries of one call of `run`, in order, and how it ended. */
  datatype Execution = Execution(queries: seq<Query>, outcome: Outcome)

  /** The path separator, `os.path.sep` on POSIX. */
  const Sep := '/'

  /** `ModuleRunner.get_test_name`: `'.'.join(filename.split(os.path.sep))[:-len('.py')]`. */
  function ModuleTestName(filename: string): string
  {
    SliceTo(Join(".", Split(filename, Sep)), -3)
  }

  /** A runner instance. Its fields are assigned once by the constructor and
      never changed; `kind` stands for the class that was instantiated. */
  class FileTestRunner {
    const kind: RunnerKind
    const fileFilter: string -> bool    // file_filter.should_test
    const testMapper: string -> string  // test_mapper.get_test_filename
    const command: seq<string>

    /** `__init__(file_filter, test_mapper, command=None)`. */
    constructor (kind: RunnerKind, fileFilter: string -> bool, testMapper: string -> string,
                 command: Option<seq<string>>)
      ensures this.kind == kind
      ensures this.fileFilter == fileFilter && this.testMapper == testMapper
      ensures this.command == InitCommand(command)
    {
      this.kind := kind;
      this.fileFilter := fileFilter;
      this.testMapper := testMapper;
      this.command := InitCommand(command);
    }

    /** Construction as evidently intended, with the class's default command. */
    constructor WithClassDefault(kind: RunnerKind, fileFilter: string -> bool,
                                 testMapper: string -> string, command: Option<seq<string>>)
      ensures this.kind == kind
      ensures this.fileFilter == fileFilter && this.testMapper == testMapper
      ensures this.command == IntendedInitCommand(kind, command)
    {
      this.kind := kind;
      this.fileFilter := fileFilter;
      this.testMapper := testMapper;
      this.command := IntendedInitCommand(kind, command);
    }

    /** `get_test_name`, dispatched on the instantiated class. */
    function GetTestName(filename: string): string
    {
      match Naming(kind)
      case FilePath => filename
      case DottedModule => ModuleTestName(filename)
    }

    /** `run_test`: the argument vector handed to `subprocess.call`. */
    function RunTest(testName: string): (argv: seq<string>)
      ensures |argv| == |command| + 1
      ensures argv[..|command|] == command && argv[|command|] == testName
    {
      command + [testName]
    }

    /** `run(filename)`, with `os.path.isfile` given as `isFile`. */
    function Run(isFile: string -> bool, filename: string): Execution
    {
      if !fileFilter(filename) then
        Execution([ShouldTest(filename)], Skipped)
      else
        var testFilename := testMapper(filename);
        var asked := [ShouldTest(filename), GetTestFilename(filename), IsFile(testFilename)];
        if !isFile(testFilename) then
          Execution(asked, Missing(filename, testFilename))
        else
          Execution(asked, Invoked(RunTest(GetTestName(testFilename))))
    }
  }

  // ---------------------------------------------------------------------------
  // Properties of resolution
  // ---------------------------------------------------------------------------

  /** The table and NameOf are inverse: every class is registered under exactly
      one name, and every name maps to the class registered under it. */
  lemma TableIsBijective()
    ensures forall k :: NameOf(k) in TestRunnerMap && TestRunnerMap[NameOf(k)] == k
    ensures forall name :: name in TestRunnerMap ==> NameOf(TestRunnerMap[name]) == name
    ensures |TestRunnerMap| == 6
  {
    assert TestRunnerMap.Keys == {"file", "unittest", "doctest", "testify", "unittest2", "pytest"};
  }

  /** Without a truthy module, resolution succeeds exactly for the table's keys,
      gives that entry, and otherwise names the offending value. */
  lemma FromConfigByName(config: Config)
    requires !Truthy(Get(config, ModuleKey))
    ensures var name := Get(config, NameKey);
      && (FromConfig(config).Ok? <==> name.Str? && name.s in TestRunnerMap)
      && (FromConfig(config).Ok? ==> FromConfig(config).value == BuiltIn(TestRunnerMap[name.s]))
      && (FromConfig(config).Err? ==>
            FromConfig(config).error == ValueError("Unknown Test Runner: " + Format(name)))
  {
  }

  /** A truthy module short-circuits: the name and the table are never
      consulted, so the rest of the configuration does not matter. */
  lemma ModuleBypassesTable(config: Config, other: Config)
    requires Truthy(Get(config, ModuleKey))
    requires Get(other, ModuleKey) == Get(config, ModuleKey)
    ensures FromConfig(config) == FromConfig(other) == Ok(FromModule(Get(config, ModuleKey).s))
  {
  }

  /** The cases the docstring and the table show. */
  lemma FromConfigExamples()
    ensures FromConfig(map[NameKey := Str("file")]) == Ok(BuiltIn(File))
    ensures FromConfig(map[NameKey := Str("unittest")]) == Ok(BuiltIn(Module))
    ensures FromConfig(map[NameKey := Str("doctest")]) == Ok(BuiltIn(DocTest))
    ensures FromConfig(map[]) == Err(ValueError("Unknown Test Runner: None"))
    ensures FromConfig(map[NameKey := Str("bogus")]) == Err(ValueError("Unknown Test Runner: bogus"))
    ensures FromConfig(map[ModuleKey := Str(""), NameKey := Str("pytest")]) == Ok(BuiltIn(PyTest))
  {
    TableIsBijective();
  }

  // ---------------------------------------------------------------------------
  // Properties of construction
  // ---------------------------------------------------------------------------

  /** As written, every class other than FileTestRunner declares a default
      command that construction ignores. */
  lemma DefaultCommandIgnored(k: RunnerKind)
    requires k != File
    ensures InitCommand(None) != DeclaredDefaultCommand(k)
    ensures InitCommand(Some([])) != DeclaredDefaultCommand(k)
  {
    assert DeclaredDefaultCommand(k)[0] != "python" || |DeclaredDefaultCommand(k)| == 3;
  }

  /** The consequence for a default-constructed ModuleRunner: it spawns
      `python pkg.sub.mod` rather than `python -m unittest pkg.sub.mod`. */
  lemma ModuleRunnerDefaultArgv()
    ensures InitCommand(None) + [ModuleTestName("pkg/sub/mod.py")] == ["python", "pkg.sub.mod"]
    ensures IntendedInitCommand(Module, None) + [ModuleTestName("pkg/sub/mod.py")]
         == ["python", "-m", "unittest", "pkg.sub.mod"]
  {
    ModuleTestNameExample();
  }

  // ---------------------------------------------------------------------------
  // Properties of test-name derivation
  // ---------------------------------------------------------------------------

  /** ModuleRunner's name: the path with every separator turned into '.', less
      its last three characters (all of it when it is shorter). */
  lemma ModuleTestNameSpec(filename: string)
    ensures |ModuleTestName(filename)| == if |filename| >= 3 then |filename| - 3 else 0
    ensures forall i :: 0 <= i < |ModuleTestName(filename)| ==>
      ModuleTestName(filename)[i] == (if filename[i] == Sep then '.' else filename[i])
  {
    JoinSplitIsReplace(filename, Sep, '.');
  }

  lemma ModuleTestNameExample()
    ensures ModuleTestName("pkg/sub/mod.py") == "pkg.sub.mod"
  {
    var name := ModuleTestName("pkg/sub/mod.py");
    ModuleTestNameSpec("pkg/sub/mod.py");
    assert |name| == 11;
    assert name == "pkg.sub.mod" by {
      forall i | 0 <= i < 11 ensures name[i] == "pkg.sub.mod"[i] {
      }
    }
  }

  /** The name a runner passes is the path itself for FileTestRunner,
      DocTestRunner and PyTestRunner, and the dotted module path for
      ModuleRunner, TestifyRunner and UnitTest2Runner. */
  lemma GetTestNameByKind(r: FileTestRunner, filename: string)
    ensures r.kind == File || r.kind == DocTest || r.kind == PyTest ==> r.GetTestName(filename) == filename
    ensures r.kind == Module || r.kind == Testify || r.kind == UnitTest2 ==>
      && |r.GetTestName(filename)| == (if |filename| >= 3 then |filename| - 3 else 0)
      && forall i :: 0 <= i < |r.GetTestName(filename)| ==>
           r.GetTestName(filename)[i] == (if filename[i] == Sep then '.' else filename[i])
  {
    ModuleTestNameSpec(filename);
  }

  // ---------------------------------------------------------------------------
  // Properties of the run protocol
  // ---------------------------------------------------------------------------

  /** A file the filter rejects is only asked about; nothing is mapped, checked
      or spawned. */
  lemma RunSkipsUntestable(r: FileTestRunner, isFile: string -> bool, filename: string)
    requires !r.fileFilter(filename)
    ensures r.Run(isFile, filename) == Execution([ShouldTest(filename)], Skipped)
  {
  }

  /** A missing test file ends the run after the existence check, with no spawn. */
  lemma RunMissingTest(r: FileTestRunner, isFile: string -> bool, filename: string)
    requires r.fileFilter(filename) && !isFile(r.testMapper(filename))
    ensures var testFilename := r.testMapper(filename);
      r.Run(isFile, filename) ==
        Execution([ShouldTest(filename), GetTestFilename(filename), IsFile(testFilename)],
                  Missing(filename, testFilename))
  {
  }

  /** A process is spawned exactly when both checks pass, once, with the
      runner's command unchanged followed by the derived test name. */
  lemma RunInvokes(r: FileTestRunner, isFile: string -> bool, filename: string)
    ensures r.Run(isFile, filename).outcome.Invoked? <==>
      r.fileFilter(filename) && isFile(r.testMapper(filename))
    ensures r.Run(isFile, filename).outcome.Invoked? ==>
      && r.Run(isFile, filename).outcome.argv == r.command + [r.GetTestName(r.testMapper(filename))]
      && r.Run(isFile, filename).outcome.argv[..|r.command|] == r.command
  {
  }

  /** The collaborators are always asked in the same order, and each later
      question only once the earlier answer allowed it. */
  lemma RunQueryOrder(r: FileTestRunner, isFile: string -> bool, filename: string)
    ensures var e := r.Run(isFile, filename);
      && e.queries <= [ShouldTest(filename), GetTestFilename(filename), IsFile(r.testMapper(filename))]
      && (|e.queries| == 1 <==> e.outcome.Skipped?)
      && |e.queries| != 2
  {
  }

  /** As written, a runner built without a command spawns `python` followed by
      the test name, whatever its class. */
  lemma RunDefaultCommand(r: FileTestRunner, isFile: string -> bool, filename: string)
    requires r.command == InitCommand(None)
    requires r.fileFilter(filename) && isFile(r.testMapper(filename))
    ensures r.Run(isFile, filename).outcome == Invoked(["python", r.GetTestName(r.testMapper(filename))])
  {
  }

  /** With the corrected construction, a runner built without a command spawns
      its class's declared default command followed by the test name. */
  lemma RunIntendedDefaultCommand(r: FileTestRunner, isFile: string -> bool, filename: string)
    requires r.command == IntendedInitCommand(r.kind, None)
    requires r.fileFilter(filename) && isFile(r.testMapper(filename))
    ensures r.Run(isFile, filename).outcome ==
      Invoked(DeclaredDefaultCommand(r.kind) + [r.GetTestName(r.testMapper(filename))])
  {
  }
}
