/**
 * The review run of src/main.py: from the command-line options and what the
 * outside world answers, the files to review, the three analysis tasks, the
 * AI comments, the report data and the Slack notification.
 *
 * The three tasks run on a thread pool in the source; they share no state
 * and are joined in the order static, database, tests, so they are composed
 * here one after the other.
 */
module Review {
  import opened Wrappers
  import opened Text
  import opened Workspace
  import A = Analyzer
  import D = DbChecker
  import T = TestRunner
  import P = LlmProviders
  import R = LlmReviewer
  import N = Notifier

  /** The parsed options; an option that is not given holds its default. */
  datatype Args = Args(
    projectId: Option<string>,
    mrIid: Option<string>,
    gitlabToken: Option<string>,
    dbConn: Option<string>,
    llmProvider: string,
    llmModel: Option<string>,
    llmKey: Option<string>,
    ollamaUrl: string,
    compliance: Option<string>,
    slackWebhook: Option<string>,
    autoFix: bool,
    skipTests: bool,
    onlyUnit: bool,
    onlyE2e: bool,
    localFiles: seq<string>)    // empty when `--local-files` is not given (it takes at least one path)

  /** One change of the merge request as GitLab lists it. */
  datatype Change = Change(oldPath: string, newPath: string)

  /** What the world outside the agent answers during one run. */
  datatype World = World(
    mrChanges: seq<Change>,                   // the merge request's changes, in GitLab's order
    disk: Disk,                               // the working tree, after the fix pass
    database: D.ConnectAttempt,               // what connecting to the database meets
    clientBuilt: bool,                        // whether an SDK-backed provider's client can be constructed
    tests: T.Env,                             // the build files, tools and reports the test run sees
    sdk: string -> P.SdkOutcome,              // what the LLM SDK does with a prompt
    http: string -> P.HttpOutcome,            // what Ollama does with a prompt
    pdfPath: string)                          // the absolute path of the PDF report written

  /** `report_data`, the record saved for the dashboard. */
  datatype ReportData = ReportData(
    projectId: Option<string>,
    mrIid: Option<string>,
    staticAnalysis: seq<A.Finding>,
    dynamicAnalysis: seq<D.DbFinding>,
    testExecution: T.TestOutcome,
    aiReviews: seq<string>)

  /** How a run ends. */
  datatype Run =
    | MissingIds                         // GitLab mode without a project id or MR id: `main` returns at once
    | Crashed(reason: string)            // an exception no one catches ends `main`
    | Completed(
        changedFiles: seq<string>,
        fixCalls: seq<string>,           // the files handed to the fixer, in order
        report: ReportData,
        postsToGitLab: bool,             // whether the summary is posted as an MR comment
        notification: Option<N.Request>) // the Slack POST, if one is sent

  // ---------------------------------------------------------------- configuration

  /** A GitLab client is wanted: a token and no local files. */
  predicate WantsGitLab(args: Args) {
    Truthy(args.gitlabToken) && args.localFiles == []
  }

  predicate LacksIds(args: Args) {
    WantsGitLab(args) && (!Truthy(args.projectId) || !Truthy(args.mrIid))
  }

  const MockFiles := ["src/main.py", "src/UserEntity.java"]

  /** The `new_path` of each change, in order. */
  function NewPaths(changes: seq<Change>): (paths: seq<string>)
    ensures |paths| == |changes| && forall k :: 0 <= k < |changes| ==> paths[k] == changes[k].newPath
  {
    seq(|changes|, k requires 0 <= k < |changes| => changes[k].newPath)
  }

  /** The files to review: the local files, else the MR's new paths, else the simulation's mock list. */
  function ChangedFiles(args: Args, changes: seq<Change>): (files: seq<string>)
    ensures args.localFiles != [] ==> files == args.localFiles
    ensures args.localFiles == [] && WantsGitLab(args) ==> files == NewPaths(changes)
    ensures args.localFiles == [] && !WantsGitLab(args) ==> files == MockFiles
  {
    if args.localFiles != [] then args.localFiles
    else if WantsGitLab(args) then NewPaths(changes)
    else MockFiles
  }

  /** `get_mr_changes` followed by the loop collecting the new paths. */
  method FetchChangedFiles(changes: seq<Change>) returns (files: seq<string>)
    ensures files == NewPaths(changes)
  {
    files := [];
    for i := 0 to |changes|
      invariant files == NewPaths(changes[..i])
    {
      files := files + [changes[i].newPath];
    }
    assert changes[..|changes|] == changes;
  }

  /** The keyword arguments `main` builds the reviewer with: all three keys, always. */
  function LlmKwargs(args: Args): P.Kwargs {
    map["api_key" := args.llmKey, "model" := args.llmModel, "base_url" := Some(args.ollamaUrl)]
  }

  /** The provider the reviewer ends up with. */
  function ProviderFor(args: Args, clientBuilt: bool): Option<P.Provider> {
    var built := P.GetProvider(args.llmProvider, LlmKwargs(args));
    if built.Ok? && (clientBuilt || built.value.Ollama?) then Some(built.value) else None
  }

  /**
   * Since `main` always passes the `model` and `base_url` keys, the default
   * model and the default Ollama URL never apply: an absent `--llm-model`
   * reaches the provider as None.
   */
  lemma ProviderTakesOptions(args: Args, clientBuilt: bool)
    ensures var p := ProviderFor(args, clientBuilt);
      && (p.Some? ==> p.value.model == args.llmModel)
      && (p.Some? && p.value.Ollama? ==> p.value.baseUrl == Some(args.ollamaUrl))
      && (p.None? <==> args.llmProvider !in P.KnownNames || (!clientBuilt && args.llmProvider != "ollama"))
  {
    var built := P.GetProvider(args.llmProvider, LlmKwargs(args));
    if built.Ok? {
      P.ExplicitModelKept(args.llmProvider, LlmKwargs(args));
    }
  }

  /** The inspector after `connect`: present exactly when a URL is configured and the database answers. */
  function InspectorAfterConnect(conn: Option<string>, attempt: D.ConnectAttempt): Option<set<string>> {
    if Truthy(conn) && attempt.Reachable? then Some(attempt.tables) else None
  }

  /** The files handed to the fixer: every changed file, in order, when auto-fix is on. */
  function FixCalls(args: Args, files: seq<string>): (calls: seq<string>)
    ensures calls == [] || calls == files
    ensures calls == files <==> files == [] || args.autoFix
  {
    if args.autoFix && files != [] then files else []
  }

  // ---------------------------------------------------------------- per-file tasks

  /**
   * A per-file task: each file's results in file order, stopping at the
   * first file whose step raises.
   */
  function Gather<X>(step: string -> Result<seq<X>, string>, files: seq<string>): Result<seq<X>, string>
    decreases |files|
  {
    if files == [] then Ok([])
    else
      match Gather(step, files[..|files| - 1])
      case Err(e) => Err(e)
      case Ok(done) => Then(Ok(done), step(files[|files| - 1]))
  }

  /** The results of two runs one after the other. */
  function Then<X>(first: Result<seq<X>, string>, second: Result<seq<X>, string>): Result<seq<X>, string> {
    match first
    case Err(e) => Err(e)
    case Ok(a) =>
      match second
      case Err(e) => Err(e)
      case Ok(b) => Ok(a + b)
  }

  /** One file alone gives its step's result. */
  lemma GatherOne<X>(step: string -> Result<seq<X>, string>, file: string)
    ensures Gather(step, [file]) == step(file)
  {
    assert [file][..0] == [];
    if step(file).Ok? {
      assert [] + step(file).value == step(file).value;
    }
  }

  /** Extending the files by one adds that file's step. */
  lemma GatherSnoc<X>(step: string -> Result<seq<X>, string>, files: seq<string>, i: nat)
    requires i < |files|
    ensures Gather(step, files[..i + 1]) == Then(Gather(step, files[..i]), step(files[i]))
  {
    assert files[..i + 1][..i] == files[..i];
  }

  /** Once a prefix of the files fails, the whole task fails with the same error. */
  lemma GatherStops<X>(step: string -> Result<seq<X>, string>, files: seq<string>, n: nat)
    requires n <= |files| && Gather(step, files[..n]).Err?
    ensures Gather(step, files) == Gather(step, files[..n])
  {
    GatherAppend(step, files[..n], files[n..]);
    assert files[..n] + files[n..] == files;
  }

  lemma ThenAssociative<X>(a: Result<seq<X>, string>, b: Result<seq<X>, string>, c: Result<seq<X>, string>)
    ensures Then(Then(a, b), c) == Then(a, Then(b, c))
  {
    if a.Ok? && b.Ok? && c.Ok? {
      assert a.value + b.value + c.value == a.value + (b.value + c.value);
    }
  }

  /** A task over two lists of files is the task over the first, then over the second. */
  lemma {:induction false} GatherAppend<X>(step: string -> Result<seq<X>, string>, a: seq<string>, b: seq<string>)
    ensures Gather(step, a + b) == Then(Gather(step, a), Gather(step, b))
    decreases |b|
  {
    if b == [] {
      assert a + b == a;
      if Gather(step, a).Ok? {
        assert Gather(step, a).value + [] == Gather(step, a).value;
      }
    } else {
      var b' := b[..|b| - 1];
      assert (a + b)[..|a + b| - 1] == a + b';
      assert (a + b)[|a + b| - 1] == b[|b| - 1];
      GatherAppend(step, a, b');
      ThenAssociative(Gather(step, a), Gather(step, b'), step(b[|b| - 1]));
    }
  }

  /** The task fails exactly when some file's step raises, and then with the first such file's error. */
  lemma {:induction false} GatherFails<X>(step: string -> Result<seq<X>, string>, files: seq<string>)
    ensures Gather(step, files).Err? <==> exists k :: 0 <= k < |files| && step(files[k]).Err?
    ensures Gather(step, files).Err? ==>
      exists k :: 0 <= k < |files| && step(files[k]).Err? && Gather(step, files).error == step(files[k]).error
        && forall j :: 0 <= j < k ==> step(files[j]).Ok?
    decreases |files|
  {
    if files != [] {
      var init := files[..|files| - 1];
      GatherFails(step, init);
      forall k | 0 <= k < |init| ensures init[k] == files[k] {
      }
    }
  }

  /** Every gathered result comes from one of the files. */
  lemma {:induction false} GatherFrom<X>(step: string -> Result<seq<X>, string>, files: seq<string>)
    requires Gather(step, files).Ok?
    ensures forall x :: x in Gather(step, files).value ==>
      exists k :: 0 <= k < |files| && step(files[k]).Ok? && x in step(files[k]).value
    decreases |files|
  {
    if files != [] {
      var init := files[..|files| - 1];
      GatherFrom(step, init);
      forall k | 0 <= k < |init| ensures init[k] == files[k] {
      }
    }
  }

  // ---------------------------------------------------------------- static analysis

  /**
   * The findings for one file, in the order they are appended: lint (when a
   * linter applies), compliance (when a standard is set), secret scan.
   */
  function FileFindings(disk: Disk, file: string, standard: Option<string>): (r: seq<A.Finding>)
    ensures |r| == (if A.RunLint(file).Some? then 1 else 0) + (if Truthy(standard) then 1 else 0) + 1
    ensures forall k :: 0 <= k < |r| ==> r[k].file == file
    ensures A.RunLint(file).Some? ==> r[0] == A.RunLint(file).value
    ensures Truthy(standard) ==> r[|r| - 2] == A.Compliance(file, ReadFile(disk, file))
    ensures r[|r| - 1] == A.SecretScan(file, ReadFile(disk, file))
  {
    var read := ReadFile(disk, file);
    (if A.RunLint(file).Some? then [A.RunLint(file).value] else [])
    + (if Truthy(standard) then [A.Compliance(file, read)] else [])
    + [A.SecretScan(file, read)]
  }

  function StaticStep(disk: Disk, standard: Option<string>): string -> Result<seq<A.Finding>, string> {
    file => Ok(FileFindings(disk, file, standard))
  }

  /** `run_static_analysis_task`: the findings of every file, in file order; the task never raises. */
  function StaticFindings(disk: Disk, files: seq<string>, standard: Option<string>): (r: seq<A.Finding>)
    ensures Gather(StaticStep(disk, standard), files) == Ok(r)
  {
    GatherFails(StaticStep(disk, standard), files);
    Gather(StaticStep(disk, standard), files).value
  }

  /** The body of the loop in `run_static_analysis_task` for one file. */
  method AnalyseFile(disk: Disk, file: string, standard: Option<string>) returns (found: seq<A.Finding>)
    ensures found == FileFindings(disk, file, standard)
  {
    var read := ReadFile(disk, file);
    found := [];
    var lint := A.RunLint(file);
    if lint.Some? {
      found := found + [lint.value];
    }
    if Truthy(standard) {
      var compliance := A.RunComplianceCheck(file, read, standard.value);
      found := found + [compliance];
    }
    var secrets := A.RunSecretScan(file, read);
    found := found + [secrets];
  }

  /** `run_static_analysis_task`, file by file. */
  method RunStaticAnalysisTask(disk: Disk, files: seq<string>, standard: Option<string>) returns (results: seq<A.Finding>)
    ensures results == StaticFindings(disk, files, standard)
  {
    results := [];
    for i := 0 to |files|
      invariant Gather(StaticStep(disk, standard), files[..i]) == Ok(results)
    {
      var found := AnalyseFile(disk, files[i], standard);
      GatherSnoc(StaticStep(disk, standard), files, i);
      results := results + found;
    }
    assert files[..|files|] == files;
  }

  // ---------------------------------------------------------------- database checks

  /** One file's database check: its finding, none, or the exception it raises. */
  function DbStep(inspector: Option<set<string>>, disk: Disk): string -> Result<seq<D.DbFinding>, string> {
    file =>
      match D.CheckFile(inspector, file, disk)
      case Err(e) => Err(e)
      case Ok(None) => Ok([])
      case Ok(Some(f)) => Ok([f])
  }

  /** `run_db_checks_task`: one finding per checked file, in file order, None dropped; a raised read error ends it. */
  method RunDbChecksTask(checker: D.DBChecker, disk: Disk, files: seq<string>) returns (r: Result<seq<D.DbFinding>, string>)
    ensures r == Gather(DbStep(checker.inspector, disk), files)
  {
    var results: seq<D.DbFinding> := [];
    for i := 0 to |files|
      invariant Gather(DbStep(checker.inspector, disk), files[..i]) == Ok(results)
    {
      var res := D.CheckFile(checker.inspector, files[i], disk);
      GatherSnoc(DbStep(checker.inspector, disk), files, i);
      if res.Err? {
        GatherStops(DbStep(checker.inspector, disk), files, i + 1);
        return Err(res.error);
      }
      if res.value.Some? {
        results := results + [res.value.value];
      } else {
        assert results + [] == results;
      }
    }
    assert files[..|files|] == files;
    r := Ok(results);
  }

  /** What one file's database check can give: findings about that file, and only for Java or XML files. */
  lemma DbStepAboutFile(inspector: Option<set<string>>, disk: Disk, file: string)
    ensures var r := DbStep(inspector, disk)(file);
      r.Ok? ==> forall f :: f in r.value ==> f.file == file && (EndsWith(file, ".java") || EndsWith(file, ".xml"))
  {
  }

  /** Every database finding is about one of the files, and only Java and XML files give any. */
  lemma DbFindingsAreAboutFiles(inspector: Option<set<string>>, disk: Disk, files: seq<string>)
    requires Gather(DbStep(inspector, disk), files).Ok?
    ensures forall f :: f in Gather(DbStep(inspector, disk), files).value ==>
      f.file in files && (EndsWith(f.file, ".java") || EndsWith(f.file, ".xml"))
  {
    var step := DbStep(inspector, disk);
    GatherFrom(step, files);
    forall f: D.DbFinding | f in Gather(step, files).value
      ensures f.file in files && (EndsWith(f.file, ".java") || EndsWith(f.file, ".xml"))
    {
      var k :| 0 <= k < |files| && step(files[k]).Ok? && f in step(files[k]).value;
      DbStepAboutFile(inspector, disk, files[k]);
    }
  }

  // ---------------------------------------------------------------- AI review

  /** One file's AI comment: none for empty content, else the bold file name and the review. */
  function AiStep(provider: Option<P.Provider>, disk: Disk, mode: Option<string>,
                  sdk: string -> P.SdkOutcome, http: string -> P.HttpOutcome): string -> Result<seq<string>, string> {
    file =>
      match R.GetCodeContent(disk, file)
      case Err(e) => Err(e)
      case Ok(content) =>
        if content == "" then Ok([])
        else Ok(["**" + file + "**: " + R.ReviewCode(provider, file, content, mode, sdk, http)])
  }

  /** The AI review loop of `main`. */
  method ReviewFiles(provider: Option<P.Provider>, disk: Disk, files: seq<string>, mode: Option<string>,
                     sdk: string -> P.SdkOutcome, http: string -> P.HttpOutcome) returns (r: Result<seq<string>, string>)
    ensures r == Gather(AiStep(provider, disk, mode, sdk, http), files)
  {
    var comments: seq<string> := [];
    for i := 0 to |files|
      invariant Gather(AiStep(provider, disk, mode, sdk, http), files[..i]) == Ok(comments)
    {
      var file := files[i];
      var content := R.GetCodeContent(disk, file);
      GatherSnoc(AiStep(provider, disk, mode, sdk, http), files, i);
      if content.Err? {
        GatherStops(AiStep(provider, disk, mode, sdk, http), files, i + 1);
        return Err(content.error);
      }
      if content.value != "" {
        var review := R.ReviewCode(provider, file, content.value, mode, sdk, http);
        comments := comments + ["**" + file + "**: " + review];
      } else {
        assert comments + [] == comments;
      }
    }
    assert files[..|files|] == files;
    r := Ok(comments);
  }

  /** A missing file gets no comment; a readable non-empty one gets exactly its own. */
  lemma AiCommentPerFile(provider: Option<P.Provider>, disk: Disk, mode: Option<string>,
                         sdk: string -> P.SdkOutcome, http: string -> P.HttpOutcome, file: string)
    ensures file !in disk ==> AiStep(provider, disk, mode, sdk, http)(file) == Ok([])
    ensures file in disk && disk[file] == Readable("") ==> AiStep(provider, disk, mode, sdk, http)(file) == Ok([])
    ensures file in disk && disk[file].Readable? && disk[file].text != "" ==>
      var r := AiStep(provider, disk, mode, sdk, http)(file);
      r.Ok? && |r.value| == 1 && r.value[0][..2 + |file| + 4] == "**" + file + "**: "
  {
    if file in disk && disk[file].Readable? && disk[file].text != "" {
      var review := R.ReviewCode(provider, file, disk[file].text, mode, sdk, http);
      var c := "**" + file + "**: " + review;
      assert c == ("**" + file + "**: ") + review;
    }
  }

  // ---------------------------------------------------------------- tests and notification

  const AllStages := ["unit", "integration", "e2e"]

  /** The stages requested of the test runner; None when the tests are skipped. */
  function TestStages(args: Args): (r: Option<seq<string>>)
    ensures r.None? <==> args.skipTests
    ensures r.Some? && args.onlyUnit ==> r.value == ["unit"]
    ensures r.Some? && !args.onlyUnit && args.onlyE2e ==> r.value == ["e2e"]
    ensures r.Some? && !args.onlyUnit && !args.onlyE2e ==> r.value == AllStages
  {
    if args.skipTests then None
    else if args.onlyUnit then Some(["unit"])
    else if args.onlyE2e then Some(["e2e"])
    else Some(AllStages)
  }

  /** The test result `main` reports: the skip record, or what `run_tests` returns. */
  function TestResult(args: Args, env: T.Env): T.TestOutcome {
    match TestStages(args)
    case None => T.Skipped("Tests skipped")
    case Some(stages) => T.Pipeline(env, Some(stages))
  }

  /** With `--only-unit` only the unit stage runs, and with `--only-e2e` alone only the e2e stage. */
  lemma SelectedStagesOnly(args: Args, env: T.Env)
    ensures var r := TestResult(args, env);
      && (args.skipTests ==> r == T.Skipped("Tests skipped"))
      && (!args.skipTests && args.onlyUnit && r.Ran? ==> forall k :: 0 <= k < |r.stages| ==> r.stages[k].0 == T.Unit)
      && (!args.skipTests && !args.onlyUnit && args.onlyE2e && r.Ran? ==> forall k :: 0 <= k < |r.stages| ==> r.stages[k].0 == T.E2E)
  {
    if !args.skipTests {
      T.PipelineGating(env, TestStages(args));
    }
  }

  /** `test_result['status']`. */
  function TestStatus(o: T.TestOutcome): (s: string)
    ensures s == "passed" <==> o.Ran? && o.status == T.Passed
  {
    match o
    case Skipped(_) => "skipped"
    case Ran(_, status) => if status == T.Passed then "passed" else "failed"
  }

  /** The notification status: success exactly when the tests passed, so skipped tests are an error. */
  function NotifyStatus(o: T.TestOutcome): (s: string)
    ensures s == "success" <==> o.Ran? && o.status == T.Passed
    ensures s != "success" ==> s == "error"
  {
    if TestStatus(o) == "passed" then "success" else "error"
  }

  /** `str()` of an optional option value. */
  function Show(v: Option<string>): string {
    if v.Some? then v.value else "None"
  }

  /** The notification text. */
  function Message(mrIid: Option<string>, status: string, pdfPath: string): string {
    "Code Review Completed for MR !" + Show(mrIid)
    + "\nStatus: " + (if status == "success" then "SUCCESS" else "ERROR")
    + "\nReport: " + pdfPath
  }

  /** The Slack request `main` ends with, given the test result. */
  function Notification(args: Args, tests: T.TestOutcome, pdfPath: string): (r: Option<N.Request>)
    ensures r.Some? <==> Truthy(args.slackWebhook)
    ensures r.Some? ==> |r.value.payload.attachments| == 1 && r.value.payload.attachments[0].color == (if NotifyStatus(tests) == "success" then N.Green else N.Red)
  {
    var status := NotifyStatus(tests);
    N.SlackNotifier(args.slackWebhook).SendNotification(Message(args.mrIid, status, pdfPath), status)
  }

  // ---------------------------------------------------------------- the run

  /**
   * `main`. A run in GitLab mode without ids stops at once. Otherwise a
   * database or AI read error that nobody catches ends it; the database
   * task's comes first, as its result is joined before the AI review starts.
   * Else it completes with the findings of every task over the changed files.
   * The GitLab client (building it, fetching changes, posting the summary)
   * and the report writer (`report.json`, HTML and PDF) are assumed not to
   * raise; they are not part of this model.
   */
  method RunReview(args: Args, world: World) returns (run: Run)
    ensures run.MissingIds? <==> LacksIds(args)
    ensures !LacksIds(args) ==>
      var files := ChangedFiles(args, world.mrChanges);
      var db := Gather(DbStep(InspectorAfterConnect(args.dbConn, world.database), world.disk), files);
      var ai := Gather(AiStep(ProviderFor(args, world.clientBuilt), world.disk, args.compliance, world.sdk, world.http), files);
      && (db.Err? ==> run == Crashed(db.error))
      && (db.Ok? && ai.Err? ==> run == Crashed(ai.error))
      && (db.Ok? && ai.Ok? ==>
          && run.Completed?
          && run.changedFiles == files
          && run.fixCalls == FixCalls(args, files)
          && run.report == ReportData(args.projectId, args.mrIid, StaticFindings(world.disk, files, args.compliance),
                                      db.value, TestResult(args, world.tests), ai.value)
          && run.postsToGitLab == WantsGitLab(args)
          && run.notification == Notification(args, TestResult(args, world.tests), world.pdfPath))
  {
    if WantsGitLab(args) && (!Truthy(args.projectId) || !Truthy(args.mrIid)) {
      return MissingIds;
    }
    var checker, provider := SetUp(args, world);
    var files := SelectFiles(args, world.mrChanges);
    var fixCalls := AutoFix(args, files);
    var lint := RunStaticAnalysisTask(world.disk, files, args.compliance);
    var db := RunDbChecksTask(checker, world.disk, files);
    var tests := RunTestTask(args, world.tests);
    if db.Err? {
      return Crashed(db.error);
    }
    var ai := ReviewFiles(provider, world.disk, files, args.compliance, world.sdk, world.http);
    if ai.Err? {
      return Crashed(ai.error);
    }
    var report := ReportData(args.projectId, args.mrIid, lint, db.value, tests, ai.value);
    var request := Notify(args, tests, world.pdfPath);
    run := Completed(files, fixCalls, report, WantsGitLab(args), request);
  }

  /** The set-up of `main`: the database checker after `connect`, and the reviewer's provider. */
  method SetUp(args: Args, world: World) returns (checker: D.DBChecker, provider: Option<P.Provider>)
    ensures checker.Valid()
    ensures checker.inspector == InspectorAfterConnect(args.dbConn, world.database)
    ensures provider == ProviderFor(args, world.clientBuilt)
  {
    checker := new D.DBChecker(args.dbConn);
    var reviewer := new R.LLMReviewer(args.llmProvider, LlmKwargs(args), world.clientBuilt);
    var _ := checker.Connect(world.database);
    provider := reviewer.provider;
  }

  /** Step 2 of `main`: where the changed files come from. */
  method SelectFiles(args: Args, changes: seq<Change>) returns (files: seq<string>)
    ensures files == ChangedFiles(args, changes)
  {
    if args.localFiles != [] {
      files := args.localFiles;
    } else if WantsGitLab(args) {
      files := FetchChangedFiles(changes);
    } else {
      files := MockFiles;
    }
  }

  /** The auto-fix pass: the fixer is called on each file in turn. */
  method AutoFix(args: Args, files: seq<string>) returns (calls: seq<string>)
    ensures calls == FixCalls(args, files)
  {
    calls := [];
    if args.autoFix && files != [] {
      for i := 0 to |files|
        invariant calls == files[..i]
      {
        calls := calls + [files[i]];
      }
      assert files[..|files|] == files;
    }
  }

  /** The test task: the default skip record unless tests are run on the selected stages. */
  method RunTestTask(args: Args, env: T.Env) returns (tests: T.TestOutcome)
    ensures tests == TestResult(args, env)
  {
    tests := T.Skipped("Tests skipped");
    if !args.skipTests {
      var stages := AllStages;
      if args.onlyUnit {
        stages := ["unit"];
      } else if args.onlyE2e {
        stages := ["e2e"];
      }
      tests := T.RunTests(env, Some(stages));
    }
  }

  /** Step 8 of `main`: the status from the tests, then the Slack notification. */
  method Notify(args: Args, tests: T.TestOutcome, pdfPath: string) returns (request: Option<N.Request>)
    ensures request == Notification(args, tests, pdfPath)
  {
    var status := if TestStatus(tests) == "passed" then "success" else "error";
    var notifier := N.SlackNotifier(args.slackWebhook);
    request := notifier.SendNotification(Message(args.mrIid, status, pdfPath), status);
  }
}
