/**
 * The staged test pipeline of src/test_runner.py: project-type detection by
 * build descriptor, the (project type x stage) command table, JUnit report
 * parsing, the synthesised passing case, and stage gating.
 *
 * Running a command is an oracle: whether its tool is on the PATH, and which
 * report files it leaves behind. The report directory of the project type is
 * state that the stages hand on to each other: a mock report written by one
 * stage, or a report file written by an earlier stage, is read again by every
 * later stage that parses the same directory.
 */
module TestRunner {
  import opened Wrappers
  import opened Text

  datatype ProjectType = Maven | Npm | Python

  datatype Stage = Unit | Integration | E2E

  datatype Status = Passed | Failed

  function StageName(stage: Stage): string {
    match stage
    case Unit => "unit"
    case Integration => "integration"
    case E2E => "e2e"
  }

  /** The stages in the order `run_tests` considers them. */
  const StageOrder: seq<Stage> := [Unit, Integration, E2E]

  /** The stage list used when the caller gives none. */
  const AllStageNames: seq<string> := ["unit", "integration", "e2e"]

  // ---------------------------------------------------------------- project type

  /** The build descriptors, highest priority first, with the project type each announces. */
  const BuildDescriptors: seq<(string, ProjectType)> :=
    [("pom.xml", Maven), ("package.json", Npm), ("requirements.txt", Python), ("pyproject.toml", Python)]

  /** Reference definition: the type announced by the first descriptor of `table` that is present. */
  function FirstPresent(table: seq<(string, ProjectType)>, present: set<string>): Option<ProjectType> {
    if table == [] then None
    else if table[0].0 in present then Some(table[0].1)
    else FirstPresent(table[1..], present)
  }

  /** The `if`/`elif` chain of `run_tests` over the files in the working directory. */
  function DetectProjectType(present: set<string>): (r: Option<ProjectType>)
    ensures r.None? <==> present !! {"pom.xml", "package.json", "requirements.txt", "pyproject.toml"}
  {
    if "pom.xml" in present then Some(Maven)
    else if "package.json" in present then Some(Npm)
    else if "requirements.txt" in present || "pyproject.toml" in present then Some(Python)
    else None
  }

  /** Detection follows the priority table: `pom.xml` wins over `package.json`, which wins over the Python files. */
  lemma DetectionFollowsPriority(present: set<string>)
    ensures DetectProjectType(present) == FirstPresent(BuildDescriptors, present)
  {
    var t := BuildDescriptors;
    assert t[1..][1..][1..][1..] == [];
    assert FirstPresent(t[1..][1..][1..], present) == (if "pyproject.toml" in present then Some(Python) else None);
    assert FirstPresent(t[1..][1..], present) ==
      (if "requirements.txt" in present then Some(Python) else FirstPresent(t[1..][1..][1..], present));
    assert FirstPresent(t[1..], present) ==
      (if "package.json" in present then Some(Npm) else FirstPresent(t[1..][1..], present));
  }

  // ---------------------------------------------------------------- command table

  /** The shell command of each stage: its tool, then the tool's arguments. */
  function Command(pt: ProjectType, stage: Stage): string {
    Tool(pt, stage) + " " + Arguments(pt, stage)
  }

  function Arguments(pt: ProjectType, stage: Stage): string {
    match (pt, stage)
    case (Python, Unit) => "tests/unit --junitxml=reports/unit.xml"
    case (Python, Integration) => "tests/integration --junitxml=reports/integration.xml"
    case (Python, E2E) => "test"
    case (Maven, Unit) => "test"
    case (Maven, Integration) => "verify"
    case (Maven, E2E) => "verify -Pe2e"
    case (Npm, Unit) => "run test:unit"
    case (Npm, Integration) => "run test:integration"
    case (Npm, E2E) => "run test:e2e"
  }

  /** Where the stage's reports are looked for; npm has none (the empty path never exists). */
  function ReportDir(pt: ProjectType): string {
    match pt
    case Python => "reports"
    case Maven => "target/surefire-reports"
    case Npm => ""
  }

  /** The executable each command starts with. */
  function Tool(pt: ProjectType, stage: Stage): string {
    match pt
    case Maven => "mvn"
    case Npm => "npm"
    case Python => if stage == E2E then "playwright" else "pytest"
  }

  /** The executable looked up on the PATH, `cmd.split()[0]`, is the tool of the table. */
  lemma ToolIsFirstWord(pt: ProjectType, stage: Stage)
    ensures FirstWord(Command(pt, stage)) == Tool(pt, stage)
  {
    var t := Tool(pt, stage);
    assert forall k :: 0 <= k < |t| ==> !IsSpace(t[k]);
    FirstWordIs(Command(pt, stage), t);
  }

  // ---------------------------------------------------------------- reports

  /**
   * A `<testcase>` element: its `name` and `classname` attributes and, when it
   * has a `<failure>` child, that child's `message` attribute.
   */
  datatype TestCase = TestCase(name: Option<string>, classname: Option<string>, failure: Option<Option<string>>)

  /** The root element of a report: its counter attributes (None when absent) and its `testcase` children. */
  datatype Suite = Suite(tests: Option<int>, failures: Option<int>, errors: Option<int>, skipped: Option<int>,
                         testcases: seq<TestCase>)

  /** A directory entry; `parsed` is None when parsing the file raises. */
  datatype ReportFile = ReportFile(name: string, parsed: Option<Suite>)

  /**
   * A case of a stage's statistics. `classname` and `message` are keys that a
   * case may lack (outer None), or hold Python's None (inner None).
   */
  datatype CaseResult = CaseResult(name: Option<string>, classname: Option<Option<string>>, status: Status,
                                   message: Option<Option<string>>)

  datatype Stats = Stats(tests: int, failures: int, errors: int, skipped: int, cases: seq<CaseResult>)

  datatype StageResult = StageResult(status: Status, details: string, stats: Stats)

  /** What `run_tests` returns: the skip record, or the attempted stages in order and the overall status. */
  datatype TestOutcome = Skipped(details: string) | Ran(stages: seq<(Stage, StageResult)>, status: Status)

  /** The oracle of one test run. */
  datatype Env = Env(
    present: set<string>,                   // files in the working directory
    tools: set<string>,                     // executables found on the PATH
    reportDir: Option<seq<ReportFile>>,     // the report directory before the first stage (None: absent)
    writes: map<Stage, seq<ReportFile>>     // report files a stage's command writes when its tool is found
  )

  const NoReports := Stats(0, 0, 0, 0, [])

  /** One `<testcase>` as the parser records it: failed exactly when it has a `<failure>` child. */
  function CaseOf(t: TestCase): (c: CaseResult)
    ensures c.status == Failed <==> t.failure.Some?
    ensures c.name == t.name && c.classname == Some(t.classname) && c.message == t.failure
  {
    CaseResult(t.name, Some(t.classname), if t.failure.Some? then Failed else Passed, t.failure)
  }

  /** The cases of a report, in document order. */
  function CasesOf(ts: seq<TestCase>): seq<CaseResult>
    decreases |ts|
  {
    if ts == [] then [] else CasesOf(ts[..|ts| - 1]) + [CaseOf(ts[|ts| - 1])]
  }

  /** One recorded case per `<testcase>` element, each recorded as `CaseOf` says. */
  lemma {:induction false} CasesOfElementwise(ts: seq<TestCase>)
    ensures |CasesOf(ts)| == |ts|
    ensures forall k :: 0 <= k < |ts| ==> CasesOf(ts)[k] == CaseOf(ts[k])
    decreases |ts|
  {
    if ts != [] {
      CasesOfElementwise(ts[..|ts| - 1]);
    }
  }

  /** What one directory entry adds: nothing unless it is an `.xml` file that parses. */
  function Contribution(f: ReportFile): Stats {
    if EndsWith(f.name, ".xml") && f.parsed.Some? then
      var s := f.parsed.value;
      Stats(s.tests.GetOr(0), s.failures.GetOr(0), s.errors.GetOr(0), s.skipped.GetOr(0), CasesOf(s.testcases))
    else NoReports
  }

  function Add(x: Stats, y: Stats): Stats {
    Stats(x.tests + y.tests, x.failures + y.failures, x.errors + y.errors, x.skipped + y.skipped, x.cases + y.cases)
  }

  /** The statistics of a directory listing: counters summed, cases concatenated in listing order. */
  function Collect(files: seq<ReportFile>): Stats
    decreases |files|
  {
    if files == [] then NoReports
    else Add(Collect(files[..|files| - 1]), Contribution(files[|files| - 1]))
  }

  /** The statistics of a directory that may be absent. */
  function ParsedReports(dir: Option<seq<ReportFile>>): Stats {
    if dir.None? then NoReports else Collect(dir.value)
  }

  /** Collecting a concatenated listing adds the statistics of the two parts. */
  lemma {:induction false} CollectAppend(a: seq<ReportFile>, b: seq<ReportFile>)
    ensures Collect(a + b) == Add(Collect(a), Collect(b))
    decreases |b|
  {
    if b == [] {
      assert a + b == a;
    } else {
      var b' := b[..|b| - 1];
      var last := b[|b| - 1];
      assert (a + b)[..|a + b| - 1] == a + b';
      assert (a + b)[|a + b| - 1] == last;
      calc {
        Collect(a + b);
        Add(Collect(a + b'), Contribution(last));
        { CollectAppend(a, b'); }
        Add(Add(Collect(a), Collect(b')), Contribution(last));
        { AddAssociative(Collect(a), Collect(b'), Contribution(last)); }
        Add(Collect(a), Add(Collect(b'), Contribution(last)));
      }
    }
  }

  lemma AddAssociative(x: Stats, y: Stats, z: Stats)
    ensures Add(Add(x, y), z) == Add(x, Add(y, z))
  {
    assert (x.cases + y.cases) + z.cases == x.cases + (y.cases + z.cases);
  }

  /** A file that is not `.xml`, or that fails to parse, is skipped: removing it changes nothing. */
  lemma SkippedFileContributesNothing(a: seq<ReportFile>, f: ReportFile, b: seq<ReportFile>)
    requires !EndsWith(f.name, ".xml") || f.parsed.None?
    ensures Collect(a + [f] + b) == Collect(a + b)
  {
    CollectAppend(a + [f], b);
    CollectAppend(a, [f]);
    CollectAppend(a, b);
    CollectSingle(f);
    AddNothing(Collect(a));
  }

  lemma CollectSingle(f: ReportFile)
    ensures Collect([f]) == Contribution(f)
  {
    assert [f][..0] == [];
    AddNothing(Contribution(f));
  }

  lemma AddNothing(c: Stats)
    ensures Add(NoReports, c) == c && Add(c, NoReports) == c
  {
    assert [] + c.cases == c.cases && c.cases + [] == c.cases;
  }

  /**
   * `parse_test_reports`: walks the listing, adding each parsed file's
   * counters and appending its cases.
   */
  method ParseTestReports(dir: Option<seq<ReportFile>>) returns (r: Stats)
    ensures r == ParsedReports(dir)
  {
    r := Stats(0, 0, 0, 0, []);
    if dir.None? {
      return;
    }
    var files := dir.value;
    for i := 0 to |files|
      invariant r == Collect(files[..i])
    {
      assert files[..i + 1][..i] == files[..i];
      var f := files[i];
      if EndsWith(f.name, ".xml") && f.parsed.Some? {
        var root := f.parsed.value;
        var cases := r.cases;
        for j := 0 to |root.testcases|
          invariant cases == r.cases + CasesOf(root.testcases[..j])
        {
          assert root.testcases[..j + 1][..j] == root.testcases[..j];
          cases := cases + [CaseOf(root.testcases[j])];
        }
        assert root.testcases[..|root.testcases|] == root.testcases;
        r := Stats(r.tests + root.tests.GetOr(0), r.failures + root.failures.GetOr(0),
                   r.errors + root.errors.GetOr(0), r.skipped + root.skipped.GetOr(0), cases);
      } else {
        assert r.cases + [] == r.cases;
      }
    }
    assert files[..|files|] == files;
  }

  // ---------------------------------------------------------------- one stage

  /** The report `_create_mock_maven_report` writes: two passing cases. */
  const MockMavenReport := ReportFile("TEST-com.example.UserEntityTest" + ".xml", Some(Suite(Some(2), Some(0), Some(0), Some(0), [
    TestCase(Some("testUserCreation"), Some("com.example.UserEntityTest"), None),
    TestCase(Some("testUserValidation"), Some("com.example.UserEntityTest"), None)])))

  /** Writes `f` into a listing: a file of the same name is overwritten in place, a new one is appended. */
  function Put(listing: seq<ReportFile>, f: ReportFile): (r: seq<ReportFile>)
    ensures f in r
    ensures forall g :: g in r && g.name != f.name ==> g in listing
    ensures forall g :: g in listing && g.name != f.name ==> g in r
    ensures (exists k :: 0 <= k < |listing| && listing[k].name == f.name) ==> |r| == |listing|
    ensures (forall k :: 0 <= k < |listing| ==> listing[k].name != f.name) ==> r == listing + [f]
  {
    if listing == [] then [f]
    else if listing[0].name == f.name then [f] + listing[1..]
    else [listing[0]] + Put(listing[1..], f)
  }

  /** Writes several files, in order. */
  function Store(listing: seq<ReportFile>, files: seq<ReportFile>): seq<ReportFile>
    decreases |files|
  {
    if files == [] then listing else Store(Put(listing, files[0]), files[1..])
  }

  /** The report files the stage's command leaves in the report directory. */
  function Writes(env: Env, stage: Stage): seq<ReportFile> {
    if stage in env.writes then env.writes[stage] else []
  }

  /**
   * The report directory after the stage's command: the command runs when its
   * tool is found (the directory is created first); otherwise only Maven's unit
   * stage simulates a run, by writing the mock report.
   */
  function DirAfterCommand(pt: ProjectType, stage: Stage, env: Env, dir: Option<seq<ReportFile>>): Option<seq<ReportFile>> {
    if Tool(pt, stage) in env.tools then
      if ReportDir(pt) == "" then dir else Some(Store(dir.GetOr([]), Writes(env, stage)))
    else if pt == Maven && stage == Unit then Some(Put(dir.GetOr([]), MockMavenReport))
    else dir
  }

  /** The listing the parser sees: `os.path.exists("")` is false, so npm never has one. */
  function Listing(pt: ProjectType, dir: Option<seq<ReportFile>>): Option<seq<ReportFile>> {
    if ReportDir(pt) == "" then None else dir
  }

  /** The case appended when a stage reports no tests. */
  function SyntheticCase(stage: Stage): CaseResult {
    CaseResult(Some(StageName(stage) + "_test"), None, Passed, None)
  }

  /** Reference definition of `run_stage`: its result and the report directory it leaves. */
  function StageRun(pt: ProjectType, stage: Stage, env: Env, dir: Option<seq<ReportFile>>)
    : (StageResult, Option<seq<ReportFile>>)
  {
    var dir' := DirAfterCommand(pt, stage, env, dir);
    var parsed := ParsedReports(Listing(pt, dir'));
    var stats := if parsed.tests == 0 then parsed.(tests := 1, cases := parsed.cases + [SyntheticCase(stage)]) else parsed;
    (StageResult(if stats.failures > 0 || stats.errors > 0 then Failed else Passed,
                 StageName(stage) + " tests completed", stats), dir')
  }

  /**
   * What a stage reports: the statistics parsed from the directory its command
   * leaves, except that a zero `tests` counter becomes 1 and gains exactly one
   * passing case, whatever the case list holds; the stage fails exactly when
   * the summed failures or errors are positive.
   */
  lemma StageRunMeaning(pt: ProjectType, stage: Stage, env: Env, dir: Option<seq<ReportFile>>)
    ensures var out := StageRun(pt, stage, env, dir);
      var parsed := ParsedReports(Listing(pt, DirAfterCommand(pt, stage, env, dir)));
      && out.1 == DirAfterCommand(pt, stage, env, dir)
      && out.0.stats.tests == (if parsed.tests == 0 then 1 else parsed.tests)
      && out.0.stats.cases == parsed.cases + (if parsed.tests == 0 then [SyntheticCase(stage)] else [])
      && out.0.stats.failures == parsed.failures && out.0.stats.errors == parsed.errors
      && out.0.stats.skipped == parsed.skipped
      && out.0.stats.tests != 0
      && (out.0.status == Failed <==> out.0.stats.failures > 0 || out.0.stats.errors > 0)
      && out.0.details == StageName(stage) + " tests completed"
  {
  }

  /** `run_stage`: the parsed statistics are patched in place when no test was found. */
  method RunStage(pt: ProjectType, stage: Stage, env: Env, dir: Option<seq<ReportFile>>)
    returns (r: StageResult, dir': Option<seq<ReportFile>>)
    ensures (r, dir') == StageRun(pt, stage, env, dir)
  {
    var cmd := Command(pt, stage);
    var reportDir := ReportDir(pt);
    var tool := FirstWord(cmd);
    ToolIsFirstWord(pt, stage);
    dir' := dir;
    if tool in env.tools {
      if reportDir != "" {
        dir' := Some(Store(dir'.GetOr([]), Writes(env, stage)));
      }
    } else if pt == Maven && stage == Unit {
      dir' := Some(Put(dir'.GetOr([]), MockMavenReport));
    }
    var parsedResults := ParseTestReports(if reportDir == "" then None else dir');
    if parsedResults.tests == 0 {
      parsedResults := parsedResults.(tests := 1);
      parsedResults := parsedResults.(cases := parsedResults.cases + [SyntheticCase(stage)]);
    }
    var status := Passed;
    if parsedResults.failures > 0 || parsedResults.errors > 0 {
      status := Failed;
    }
    r := StageResult(status, StageName(stage) + " tests completed", parsedResults);
  }

  /** An npm stage never finds a report: it passes with exactly the one synthesised case. */
  lemma NpmStagePasses(stage: Stage, env: Env, dir: Option<seq<ReportFile>>)
    ensures StageRun(Npm, stage, env, dir).0 ==
      StageResult(Passed, StageName(stage) + " tests completed", Stats(1, 0, 0, 0, [SyntheticCase(stage)]))
  {
  }

  /** The two passing cases of the mock report, as the parser records them. */
  const MockCases: seq<CaseResult> := [
    CaseResult(Some("testUserCreation"), Some(Some("com.example.UserEntityTest")), Passed, None),
    CaseResult(Some("testUserValidation"), Some(Some("com.example.UserEntityTest")), Passed, None)]

  /** What a stage reports when it reads back just the mock report. */
  function MockStageResult(stage: Stage): StageResult {
    StageResult(Passed, StageName(stage) + " tests completed", Stats(2, 0, 0, 0, MockCases))
  }

  lemma MockReportStats()
    ensures ParsedReports(Some([MockMavenReport])) == Stats(2, 0, 0, 0, MockCases)
  {
    var f := MockMavenReport;
    var n := "TEST-com.example.UserEntityTest";
    assert f.name == n + ".xml";
    assert (n + ".xml")[|n|..] == ".xml";
    var suite := Suite(Some(2), Some(0), Some(0), Some(0), f.parsed.value.testcases);
    assert f.parsed == Some(suite);
    assert CasesOf(suite.testcases) == MockCases by {
      assert |suite.testcases| == 2;
    }
    SingleParsedFile(f, suite);
  }

  lemma SingleParsedFile(f: ReportFile, suite: Suite)
    requires EndsWith(f.name, ".xml") && f.parsed == Some(suite)
    ensures Collect([f]) ==
      Stats(suite.tests.GetOr(0), suite.failures.GetOr(0), suite.errors.GetOr(0), suite.skipped.GetOr(0), CasesOf(suite.testcases))
  {
    assert [f][..0] == [];
  }

  /**
   * Maven's unit stage without `mvn` on the PATH, over an absent or empty
   * report directory, reads back the mock report: two passing cases.
   */
  lemma MavenUnitWithoutToolReadsMock(env: Env, dir: Option<seq<ReportFile>>)
    requires "mvn" !in env.tools && dir.GetOr([]) == []
    ensures StageRun(Maven, Unit, env, dir).1 == Some([MockMavenReport])
    ensures StageRun(Maven, Unit, env, dir).0 == MockStageResult(Unit)
  {
    assert Put([], MockMavenReport) == [MockMavenReport];
    StageOverMock(Unit, env, dir);
  }

  /** A Maven stage whose directory holds just the mock report afterwards passes with its two cases. */
  lemma StageOverMock(stage: Stage, env: Env, dir: Option<seq<ReportFile>>)
    requires DirAfterCommand(Maven, stage, env, dir) == Some([MockMavenReport])
    ensures StageRun(Maven, stage, env, dir).1 == Some([MockMavenReport])
    ensures StageRun(Maven, stage, env, dir).0 ==
      MockStageResult(stage)
  {
    MockReportStats();
    assert Listing(Maven, Some([MockMavenReport])) == Some([MockMavenReport]);
  }

  // ---------------------------------------------------------------- the pipeline

  type Dir = Option<seq<ReportFile>>

  /** How one stage runs over a report directory: its result and the directory it leaves. */
  type Runner = (Stage, Dir) -> (StageResult, Dir)

  /** The stages of a project as `run_stage` runs them. */
  function StageRunner(pt: ProjectType, env: Env): Runner {
    (stage: Stage, dir: Dir) => StageRun(pt, stage, env, dir)
  }

  /**
   * Reference definition of the gated run: the stages of `todo` that are
   * requested, in order, each seeing the directory its predecessor left; a
   * failed stage is the last one attempted.
   */
  function Attempt(run: Runner, todo: seq<Stage>, requested: seq<string>, dir: Dir): seq<(Stage, StageResult)>
    decreases |todo|
  {
    if todo == [] then []
    else if StageName(todo[0]) !in requested then Attempt(run, todo[1..], requested, dir)
    else
      var out := run(todo[0], dir);
      [(todo[0], out.0)] + (if out.0.status == Failed then [] else Attempt(run, todo[1..], requested, out.1))
  }

  predicate SomeFailed(attempted: seq<(Stage, StageResult)>) {
    exists k :: 0 <= k < |attempted| && attempted[k].1.status == Failed
  }

  /** Reference definition of `run_tests`. */
  function Pipeline(env: Env, stages: Option<seq<string>>): TestOutcome {
    match DetectProjectType(env.present)
    case None => Skipped("No build file found")
    case Some(pt) =>
      var attempted := Attempt(StageRunner(pt, env), StageOrder, stages.GetOr(AllStageNames), env.reportDir);
      Ran(attempted, if SomeFailed(attempted) then Failed else Passed)
  }

  /** One step of `Attempt` over a requested stage that passes. */
  lemma AttemptStep(run: Runner, todo: seq<Stage>, requested: seq<string>, dir: Dir)
    requires todo != [] && StageName(todo[0]) in requested
    requires run(todo[0], dir).0.status == Passed
    ensures Attempt(run, todo, requested, dir) ==
      [(todo[0], run(todo[0], dir).0)] + Attempt(run, todo[1..], requested, run(todo[0], dir).1)
  {
  }

  /** A requested stage that fails is the last one attempted. */
  lemma AttemptStop(run: Runner, todo: seq<Stage>, requested: seq<string>, dir: Dir)
    requires todo != [] && StageName(todo[0]) in requested
    requires run(todo[0], dir).0.status == Failed
    ensures Attempt(run, todo, requested, dir) == [(todo[0], run(todo[0], dir).0)]
  {
  }

  /** A stage that is not requested is passed over. */
  lemma AttemptSkip(run: Runner, todo: seq<Stage>, requested: seq<string>, dir: Dir)
    requires todo != [] && StageName(todo[0]) !in requested
    ensures Attempt(run, todo, requested, dir) == Attempt(run, todo[1..], requested, dir)
  {
  }

  lemma SomeFailedAppend(a: seq<(Stage, StageResult)>, x: (Stage, StageResult))
    requires !SomeFailed(a)
    ensures SomeFailed(a + [x]) <==> x.1.status == Failed
  {
    if x.1.status == Failed {
      assert (a + [x])[|a|] == x;
    } else {
      forall k | 0 <= k < |a + [x]| ensures (a + [x])[k].1.status != Failed {
        if k < |a| { assert (a + [x])[k] == a[k]; }
      }
    }
  }

  /**
   * `run_tests`: three guarded blocks in the fixed stage order; a block runs
   * when its stage is requested and no earlier block recorded a failure.
   */
  method RunTests(env: Env, stages: Option<seq<string>>) returns (r: TestOutcome)
    ensures r == Pipeline(env, stages)
  {
    var requested := if stages.None? then AllStageNames else stages.value;
    var projectType := DetectProjectType(env.present);
    if projectType.None? {
      return Skipped("No build file found");
    }
    var pt := projectType.value;
    ghost var whole := Attempt(StageRunner(pt, env), StageOrder, requested, env.reportDir);
    var results: seq<(Stage, StageResult)> := [];
    var overallStatus := Passed;
    var dir := env.reportDir;
    results, overallStatus, dir := GuardedStage(pt, env, StageOrder, requested, results, overallStatus, dir, whole);
    results, overallStatus, dir := GuardedStage(pt, env, [Integration, E2E], requested, results, overallStatus, dir, whole);
    results, overallStatus, dir := GuardedStage(pt, env, [E2E], requested, results, overallStatus, dir, whole);
    assert results + Attempt(StageRunner(pt, env), [], requested, dir) == results;
    r := Ran(results, overallStatus);
  }

  /**
   * One block of `run_tests`: the stage `pending[0]` runs when requested and
   * no failure was recorded, appending its result and recording a failure.
   * Before and after, the results gathered so far and the stages still to
   * come make up the whole gated run.
   */
  method GuardedStage(pt: ProjectType, env: Env, pending: seq<Stage>, requested: seq<string>,
                      results: seq<(Stage, StageResult)>, overallStatus: Status, dir: Dir,
                      ghost whole: seq<(Stage, StageResult)>)
    returns (results': seq<(Stage, StageResult)>, overallStatus': Status, dir': Dir)
    requires pending != []
    requires overallStatus == Failed ==> whole == results && SomeFailed(results)
    requires overallStatus == Passed ==>
      whole == results + Attempt(StageRunner(pt, env), pending, requested, dir) && !SomeFailed(results)
    ensures overallStatus' == Failed ==> whole == results' && SomeFailed(results')
    ensures overallStatus' == Passed ==>
      whole == results' + Attempt(StageRunner(pt, env), pending[1..], requested, dir') && !SomeFailed(results')
  {
    results', overallStatus', dir' := results, overallStatus, dir;
    ghost var run := StageRunner(pt, env);
    if StageName(pending[0]) in requested && overallStatus != Failed {
      var res, d := RunStage(pt, pending[0], env, dir);
      assert (res, d) == run(pending[0], dir);
      StageBlock(run, pending, requested, dir, results, res, d);
      results' := results + [(pending[0], res)];
      dir' := d;
      if res.status == Failed { overallStatus' := Failed; }
    } else if overallStatus == Passed {
      AttemptSkip(run, pending, requested, dir);
    }
  }

  /** One guarded block of `run_tests`, in terms of `Attempt`. */
  lemma StageBlock(run: Runner, pending: seq<Stage>, requested: seq<string>, dir: Dir,
                   results: seq<(Stage, StageResult)>, res: StageResult, dir': Dir)
    requires pending != [] && StageName(pending[0]) in requested && (res, dir') == run(pending[0], dir)
    requires !SomeFailed(results)
    ensures res.status == Failed ==>
      results + Attempt(run, pending, requested, dir) == results + [(pending[0], res)] && SomeFailed(results + [(pending[0], res)])
    ensures res.status == Passed ==>
      results + Attempt(run, pending, requested, dir) == results + [(pending[0], res)] + Attempt(run, pending[1..], requested, dir')
      && !SomeFailed(results + [(pending[0], res)])
  {
    SomeFailedAppend(results, (pending[0], res));
    if res.status == Failed {
      AttemptStop(run, pending, requested, dir);
    } else {
      AttemptStep(run, pending, requested, dir);
    }
  }

  // ---------------------------------------------------------------- properties of the pipeline

  /** The position of a stage in the fixed order. */
  function Position(stage: Stage): nat {
    match stage
    case Unit => 0
    case Integration => 1
    case E2E => 2
  }

  predicate InOrder(stages: seq<Stage>) {
    forall i, j :: 0 <= i < j < |stages| ==> Position(stages[i]) < Position(stages[j])
  }

  lemma InOrderTail(todo: seq<Stage>)
    requires todo != [] && InOrder(todo)
    ensures InOrder(todo[1..])
    ensures forall s :: s in todo[1..] ==> Position(todo[0]) < Position(s)
  {
    var rest := todo[1..];
    forall i, j | 0 <= i < j < |rest| ensures Position(rest[i]) < Position(rest[j]) {
      assert rest[i] == todo[i + 1] && rest[j] == todo[j + 1];
    }
    forall s | s in rest ensures Position(todo[0]) < Position(s) {
      var m :| 0 <= m < |rest| && rest[m] == s;
      assert todo[m + 1] == s;
    }
  }

  function Stages(a: seq<(Stage, StageResult)>): seq<Stage> {
    seq(|a|, k requires 0 <= k < |a| => a[k].0)
  }

  /** Every attempted stage comes from `todo` and was requested. */
  lemma {:induction false} AttemptFromRequested(run: Runner, todo: seq<Stage>, requested: seq<string>, dir: Dir)
    ensures var a := Attempt(run, todo, requested, dir);
      forall k :: 0 <= k < |a| ==> a[k].0 in todo && StageName(a[k].0) in requested
    decreases |todo|
  {
    if todo != [] {
      var out := run(todo[0], dir);
      var a := Attempt(run, todo, requested, dir);
      if StageName(todo[0]) !in requested {
        AttemptSkip(run, todo, requested, dir);
        AttemptFromRequested(run, todo[1..], requested, dir);
      } else if out.0.status == Failed {
        AttemptStop(run, todo, requested, dir);
      } else {
        AttemptStep(run, todo, requested, dir);
        AttemptFromRequested(run, todo[1..], requested, out.1);
        var tail := Attempt(run, todo[1..], requested, out.1);
        forall k | 1 <= k < |a| ensures a[k].0 in todo {
          assert a[k] == tail[k - 1];
          assert tail[k - 1].0 in todo[1..];
        }
      }
    }
  }

  /** The attempted stages keep the order of an ordered `todo`. */
  lemma {:induction false} AttemptInOrder(run: Runner, todo: seq<Stage>, requested: seq<string>, dir: Dir)
    requires InOrder(todo)
    ensures InOrder(Stages(Attempt(run, todo, requested, dir)))
    decreases |todo|
  {
    if todo != [] {
      var out := run(todo[0], dir);
      var a := Attempt(run, todo, requested, dir);
      InOrderTail(todo);
      if StageName(todo[0]) !in requested {
        AttemptSkip(run, todo, requested, dir);
        AttemptInOrder(run, todo[1..], requested, dir);
      } else if out.0.status == Failed {
        AttemptStop(run, todo, requested, dir);
      } else {
        AttemptStep(run, todo, requested, dir);
        var tail := Attempt(run, todo[1..], requested, out.1);
        AttemptInOrder(run, todo[1..], requested, out.1);
        AttemptFromRequested(run, todo[1..], requested, out.1);
        ConsInOrder((todo[0], out.0), tail);
      }
    }
  }

  /** Prepending a stage that comes before every stage of an ordered run keeps it ordered. */
  lemma ConsInOrder(x: (Stage, StageResult), tail: seq<(Stage, StageResult)>)
    requires InOrder(Stages(tail))
    requires forall k :: 0 <= k < |tail| ==> Position(x.0) < Position(tail[k].0)
    ensures InOrder(Stages([x] + tail))
  {
    var a := [x] + tail;
    forall i, j | 0 <= i < j < |a| ensures Position(Stages(a)[i]) < Position(Stages(a)[j]) {
      assert a[j] == tail[j - 1];
      if i > 0 {
        assert a[i] == tail[i - 1];
        assert Stages(tail)[i - 1] == Stages(a)[i] && Stages(tail)[j - 1] == Stages(a)[j];
      }
    }
  }

  /** Only the last attempted stage may have failed. */
  lemma {:induction false} AttemptOnlyLastFails(run: Runner, todo: seq<Stage>, requested: seq<string>, dir: Dir)
    ensures var a := Attempt(run, todo, requested, dir);
      forall k :: 0 <= k < |a| - 1 ==> a[k].1.status == Passed
    decreases |todo|
  {
    if todo != [] {
      var out := run(todo[0], dir);
      var a := Attempt(run, todo, requested, dir);
      if StageName(todo[0]) !in requested {
        AttemptSkip(run, todo, requested, dir);
        AttemptOnlyLastFails(run, todo[1..], requested, dir);
      } else if out.0.status == Failed {
        AttemptStop(run, todo, requested, dir);
      } else {
        AttemptStep(run, todo, requested, dir);
        AttemptOnlyLastFails(run, todo[1..], requested, out.1);
        var tail := Attempt(run, todo[1..], requested, out.1);
        forall k | 1 <= k < |a| - 1 ensures a[k].1.status == Passed {
          assert a[k] == tail[k - 1];
        }
      }
    }
  }

  /**
   * Completeness of `Attempt`: a requested stage of `todo` that is not attempted
   * comes after an attempted stage that failed.
   */
  lemma {:induction false} AttemptComplete(run: Runner, todo: seq<Stage>, requested: seq<string>, dir: Dir, stage: Stage)
    requires InOrder(todo)
    requires stage in todo && StageName(stage) in requested
    ensures var a := Attempt(run, todo, requested, dir);
      (exists k :: 0 <= k < |a| && a[k].0 == stage) ||
      (exists k :: 0 <= k < |a| && a[k].1.status == Failed && Position(a[k].0) < Position(stage))
    decreases |todo|
  {
    var out := run(todo[0], dir);
    var a := Attempt(run, todo, requested, dir);
    InOrderTail(todo);
    if todo[0] == stage {
      if out.0.status == Failed {
        AttemptStop(run, todo, requested, dir);
      } else {
        AttemptStep(run, todo, requested, dir);
      }
      assert a[0].0 == stage;
    } else {
      assert stage in todo[1..];
      if StageName(todo[0]) !in requested {
        AttemptSkip(run, todo, requested, dir);
        AttemptComplete(run, todo[1..], requested, dir, stage);
      } else if out.0.status == Failed {
        AttemptStop(run, todo, requested, dir);
        assert a[0].1.status == Failed && Position(a[0].0) < Position(stage);
      } else {
        AttemptStep(run, todo, requested, dir);
        var tail := Attempt(run, todo[1..], requested, out.1);
        AttemptComplete(run, todo[1..], requested, out.1, stage);
        if k :| 0 <= k < |tail| && tail[k].0 == stage {
          assert a[k + 1] == tail[k];
        } else {
          var k :| 0 <= k < |tail| && tail[k].1.status == Failed && Position(tail[k].0) < Position(stage);
          assert a[k + 1] == tail[k];
        }
      }
    }
  }

  /** `run_tests` skips exactly when no build descriptor is present. */
  lemma PipelineSkipsWithoutBuildFile(env: Env, stages: Option<seq<string>>)
    ensures Pipeline(env, stages).Skipped? <==> DetectProjectType(env.present).None?
    ensures Pipeline(env, stages).Skipped? ==> Pipeline(env, stages).details == "No build file found"
  {
  }

  /** The run of a detected project: the gated attempt over the requested stages. */
  lemma PipelineRan(env: Env, stages: Option<seq<string>>, pt: ProjectType)
    requires DetectProjectType(env.present) == Some(pt)
    ensures var a := Attempt(StageRunner(pt, env), StageOrder, stages.GetOr(AllStageNames), env.reportDir);
      Pipeline(env, stages) == Ran(a, if SomeFailed(a) then Failed else Passed)
  {
  }

  /**
   * Gating in `run_tests`: the attempted stages are requested ones, in the
   * order unit, integration, e2e; no stage follows a failed one; the overall
   * status is failed exactly when the last attempted stage failed.
   */
  lemma PipelineGating(env: Env, stages: Option<seq<string>>)
    ensures var r := Pipeline(env, stages); r.Ran? ==>
      && (forall k :: 0 <= k < |r.stages| ==> StageName(r.stages[k].0) in stages.GetOr(AllStageNames))
      && InOrder(Stages(r.stages))
      && (forall k :: 0 <= k < |r.stages| - 1 ==> r.stages[k].1.status == Passed)
      && (r.status == Failed <==> r.stages != [] && r.stages[|r.stages| - 1].1.status == Failed)
  {
    if pt :| DetectProjectType(env.present) == Some(pt) {
      var requested := stages.GetOr(AllStageNames);
      var run := StageRunner(pt, env);
      var a := Attempt(run, StageOrder, requested, env.reportDir);
      PipelineRan(env, stages, pt);
      assert InOrder(StageOrder);
      AttemptFromRequested(run, StageOrder, requested, env.reportDir);
      AttemptInOrder(run, StageOrder, requested, env.reportDir);
      AttemptOnlyLastFails(run, StageOrder, requested, env.reportDir);
      OnlyLastFailsStatus(a);
    }
  }

  lemma OnlyLastFailsStatus(a: seq<(Stage, StageResult)>)
    requires forall k :: 0 <= k < |a| - 1 ==> a[k].1.status == Passed
    ensures SomeFailed(a) <==> a != [] && a[|a| - 1].1.status == Failed
  {
  }

  /** Completeness of `run_tests`: in a passing run, every requested stage was run. */
  lemma PipelineComplete(env: Env, stages: Option<seq<string>>, stage: Stage)
    requires StageName(stage) in stages.GetOr(AllStageNames)
    ensures var r := Pipeline(env, stages); r.Ran? && r.status == Passed ==>
      exists k :: 0 <= k < |r.stages| && r.stages[k].0 == stage
  {
    if pt :| DetectProjectType(env.present) == Some(pt) {
      var requested := stages.GetOr(AllStageNames);
      var run := StageRunner(pt, env);
      var a := Attempt(run, StageOrder, requested, env.reportDir);
      PipelineRan(env, stages, pt);
      assert InOrder(StageOrder);
      assert stage in StageOrder;
      AttemptComplete(run, StageOrder, requested, env.reportDir, stage);
    }
  }

  /** A failing unit stage ends the run: the result is exactly that stage, and the run failed. */
  lemma UnitFailureStopsPipeline(env: Env, stages: Option<seq<string>>, pt: ProjectType)
    requires DetectProjectType(env.present) == Some(pt)
    requires "unit" in stages.GetOr(AllStageNames)
    requires StageRun(pt, Unit, env, env.reportDir).0.status == Failed
    ensures Pipeline(env, stages) == Ran([(Unit, StageRun(pt, Unit, env, env.reportDir).0)], Failed)
  {
    var a := Attempt(StageRunner(pt, env), StageOrder, stages.GetOr(AllStageNames), env.reportDir);
    assert a == [(Unit, StageRun(pt, Unit, env, env.reportDir).0)];
    assert SomeFailed(a) by { assert a[0].1.status == Failed; }
  }

  /** Only which stage names the list holds matters, not their order or repetitions. */
  lemma {:induction false} AttemptDependsOnMembership(run: Runner, todo: seq<Stage>, req1: seq<string>, req2: seq<string>,
                                                      dir: Dir)
    requires forall st :: StageName(st) in req1 <==> StageName(st) in req2
    ensures Attempt(run, todo, req1, dir) == Attempt(run, todo, req2, dir)
    decreases |todo|
  {
    if todo != [] {
      AttemptDependsOnMembership(run, todo[1..], req1, req2, dir);
      AttemptDependsOnMembership(run, todo[1..], req1, req2, run(todo[0], dir).1);
    }
  }

  lemma PipelineDependsOnMembership(env: Env, req1: seq<string>, req2: seq<string>)
    requires forall st :: StageName(st) in req1 <==> StageName(st) in req2
    ensures Pipeline(env, Some(req1)) == Pipeline(env, Some(req2))
  {
    if pt :| DetectProjectType(env.present) == Some(pt) {
      AttemptDependsOnMembership(StageRunner(pt, env), StageOrder, req1, req2, env.reportDir);
    }
  }

  /**
   * When all three stages are requested and each passes over the directory
   * its predecessor left, all three are attempted, in order.
   */
  lemma AllStagesPass(run: Runner, names: seq<string>, dir0: Dir)
    requires "unit" in names && "integration" in names && "e2e" in names
    requires var d1 := run(Unit, dir0).1; var d2 := run(Integration, d1).1;
      && run(Unit, dir0).0.status == Passed && run(Integration, d1).0.status == Passed
      && run(E2E, d2).0.status == Passed
    ensures var d1 := run(Unit, dir0).1; var d2 := run(Integration, d1).1;
      Attempt(run, StageOrder, names, dir0) ==
        [(Unit, run(Unit, dir0).0), (Integration, run(Integration, d1).0), (E2E, run(E2E, d2).0)]
  {
    var d1 := run(Unit, dir0).1;
    var d2 := run(Integration, d1).1;
    assert StageOrder[1..] == [Integration, E2E] && [Integration, E2E][1..] == [E2E] && [E2E][1..] == [];
    AttemptStep(run, [E2E], names, d2);
    AttemptStep(run, [Integration, E2E], names, d1);
    AttemptStep(run, StageOrder, names, dir0);
  }

  /** The stages of a Maven run that reads back the mock report throughout. */
  const MockRun: seq<(Stage, StageResult)> :=
    [(Unit, MockStageResult(Unit)), (Integration, MockStageResult(Integration)), (E2E, MockStageResult(E2E))]

  lemma MockRunPasses()
    ensures !SomeFailed(MockRun)
  {
    forall k | 0 <= k < |MockRun| ensures MockRun[k].1.status == Passed {
      assert MockRun[k].1 == MockStageResult(MockRun[k].0);
    }
  }

  /** Without `mvn`, a directory holding just the mock report keeps it, and every stage passes over it. */
  lemma MockPersists(stage: Stage, env: Env)
    requires "mvn" !in env.tools
    ensures StageRun(Maven, stage, env, Some([MockMavenReport])) == (MockStageResult(stage), Some([MockMavenReport]))
  {
    var m := [MockMavenReport];
    assert Put(m, MockMavenReport) == m by {
      assert m[1..] == [];
    }
    StageOverMock(stage, env, Some(m));
  }

  /**
   * A Maven project without `mvn` and with no reports yet: every stage reads
   * back the mock report the unit stage wrote, so all three run and pass.
   */
  lemma MavenWithoutToolPasses(env: Env)
    requires DetectProjectType(env.present) == Some(Maven)
    requires "mvn" !in env.tools && env.reportDir.GetOr([]) == []
    ensures Pipeline(env, None) == Ran(MockRun, Passed)
  {
    var d := Some([MockMavenReport]);
    var run := StageRunner(Maven, env);
    MavenUnitWithoutToolReadsMock(env, env.reportDir);
    MockPersists(Integration, env);
    MockPersists(E2E, env);
    AllStagesPass(run, AllStageNames, env.reportDir);
    assert Attempt(run, StageOrder, AllStageNames, env.reportDir) == MockRun;
    MockRunPasses();
  }
}
