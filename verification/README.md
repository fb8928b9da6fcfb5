# GitLab code-review agent, modelled in Dafny

A model of the core of a GitLab merge-request review agent, with proofs about it. For each changed file of a merge request (or each local file, or a fixed mock list), the agent does four things.

- It runs extension-based linters, an optional compliance heuristic and a secret heuristic.
- It checks JPA `@Table(name="…")` annotations against a database schema.
- It runs the project's test stages (unit, integration, e2e) with fail-fast gating.
- It asks a large-language-model provider for a review of each file's content.

It then assembles a report, may post a summary to the merge request, and may notify a Slack webhook.

The project has one Dafny module per source file:

| module | file | models |
|---|---|---|
| `Analyzer` | `analyzer.dfy` | the second `Analyzer` class of `src/analyzer.py` |
| `TestRunner` | `test_runner.dfy` | `src/test_runner.py` |
| `DbChecker` | `db_checker.dfy` | `src/db_checker.py`; `DBChecker` is a class whose `Connect` updates its fields |
| `LlmProviders` | `llm_providers.dfy` | `src/llm_providers.py` |
| `LlmReviewer` | `llm_reviewer.dfy` | `src/llm_reviewer.py`; `LLMReviewer` is a class |
| `Notifier` | `notifier.dfy` | `src/notifier.py` |
| `Review` | `review.dfy` | `main`, `run_static_analysis_task` and `run_db_checks_task` of `src/main.py` |

Three small modules support them:

- `Wrappers`: `Option`, `Result`, and Python truthiness of an optional string.
- `Text`: substring occurrence, suffixes, ASCII character classes, runs of characters, first word, decimal digits.
- `Workspace`: the working tree as a map from path to readable text or a read failure.

The outside world is a parameter in every case:

- The files on disk.
- Which build descriptors and tools exist.
- The report files a test command writes.
- What connecting to the database meets.
- What an SDK call or HTTP request returns for a prompt.

A method never performs I/O; it reads these oracles.

Two regular expressions are modelled as declarative patterns:

- the IPv4 pattern of the compliance check;
- the `@Table` pattern of the JPA check.

For each, a greedy matcher without backtracking is proved to find exactly the pattern's matches. The IPv4 scan answers whether a match exists. For the `@Table` pattern, the leftmost-match search is proved to return the capture of the first match.

## Model

| member | source | states |
|---|---|---|
| Analyzer.RunLint | src/analyzer.py:53-77 | a `.py` file gets pylint, `.js`/`.ts` eslint, `.java` checkstyle, each a passing record for that file with no errors; every other file gets no lint record (both directions) |
| Analyzer.SuffixesExclusive | src/analyzer.py:57-62 | a path ends with at most one of the linted extensions, so the order of the `elif` chain does not matter |
| Analyzer.HasHardcodedIp | src/analyzer.py:101-105 | the scan answers true exactly when `\b\d{1,3}\.\d{1,3}\.\d{1,3}\.\d{1,3}\b` matches somewhere in the content |
| Analyzer.QuadStartsAtIff | src/analyzer.py:101-102 | the greedy matcher succeeds at a position exactly when the IPv4 pattern matches there with some group widths (no backtracking is needed) |
| Analyzer.ViolationMessagesDistinct | src/analyzer.py:91-105 | the three compliance messages are pairwise different |
| Analyzer.ComplianceViolationsMeaning | src/analyzer.py:88-107 | each violation message is reported exactly when its heuristic fires (stdout logging, MD5/SHA1, a dotted quad); no other message appears; none appears twice; logging comes first and the IP message last |
| Analyzer.Compliance | src/analyzer.py:79-110 | a readable file gives the `compliance` record with exactly its violations, failed iff there are any; a failed read gives status `error` with the exception text |
| Analyzer.RunComplianceCheck | src/analyzer.py:79-110 | the step-by-step check, which sets the status as it appends, gives the `Compliance` record; the `standard` argument selects nothing |
| Analyzer.SecretScan | src/analyzer.py:112-134 | failed with the one secret message iff `sk-`, `ghp_` or `password =` occurs; passed with no errors otherwise; an `error` record with the exception text when the read fails |
| Analyzer.RunSecretScan | src/analyzer.py:112-134 | the step-by-step scan gives the `SecretScan` record |
| TestRunner.DetectProjectType | src/test_runner.py:21-31 | no project type exactly when none of `pom.xml`, `package.json`, `requirements.txt`, `pyproject.toml` is present |
| TestRunner.DetectionFollowsPriority | src/test_runner.py:21-27 | the `if`/`elif` chain equals "the type of the first present descriptor" over the priority list pom.xml, package.json, requirements.txt, pyproject.toml |
| TestRunner.ToolIsFirstWord | src/test_runner.py:60-82 | the first whitespace-separated word of every command in the (project type × stage) table is the tool looked up on the PATH |
| TestRunner.CaseOf | src/test_runner.py:137-149 | a test case is failed exactly when it has a `<failure>` child; name, classname and failure message are carried over |
| TestRunner.CasesOfElementwise | src/test_runner.py:137-149 | the cases of a report are its test cases, one for one, in document order |
| TestRunner.CollectAppend | src/test_runner.py:125-154 | the statistics of a concatenated listing are the sums of the counters and the concatenation of the cases of the two parts |
| TestRunner.SkippedFileContributesNothing | src/test_runner.py:126-152 | a non-`.xml` file or a file that fails to parse leaves the statistics unchanged wherever it is listed |
| TestRunner.SingleParsedFile | src/test_runner.py:128-149 | one parsed report contributes its counter attributes (0 when absent) and its cases |
| TestRunner.ParseTestReports | src/test_runner.py:117-154 | the loop over the directory listing computes the collected statistics; a missing directory gives all zeros and no cases |
| TestRunner.Put | src/test_runner.py:156-167 | writing the mock report leaves it in the directory, keeps every file of another name and adds nothing else; it replaces a same-named file (the listing keeps its length) or is appended at the end |
| TestRunner.MockReportStats | src/test_runner.py:156-167 | the mock Maven report reads back as 2 tests, no failures, errors or skips, and its two cases |
| TestRunner.StageRunMeaning | src/test_runner.py:54-114 | a stage's statistics are those parsed after its command, with one synthetic passing case added when no tests were reported; failed iff failures or errors > 0; the details name the stage |
| TestRunner.RunStage | src/test_runner.py:54-114 | the stage method gives the `StageRun` result and report directory |
| TestRunner.NpmStagePasses | src/test_runner.py:70-108 | an npm stage has no report directory, so it always passes with exactly the synthetic case |
| TestRunner.MavenUnitWithoutToolReadsMock | src/test_runner.py:92-96 | without `mvn` and with no reports, the unit stage writes the mock report and passes over it |
| TestRunner.StageOverMock | src/test_runner.py:98-114 | a Maven stage over a directory holding only the mock report gives the mock statistics |
| TestRunner.MockPersists | src/test_runner.py:92-96 | without `mvn`, every stage keeps the mock report in the directory and passes over it |
| TestRunner.RunTests | src/test_runner.py:8-52 | the method, written as in the source with its three guarded blocks, gives the `Pipeline` outcome |
| TestRunner.GuardedStage | src/test_runner.py:36-49 | one guarded stage block keeps the invariant: the stage results so far plus the stages still to be attempted form the whole run, and the status is failed exactly when some result failed |
| TestRunner.AttemptFromRequested | src/test_runner.py:36-49 | every attempted stage is one of the stages considered and was requested |
| TestRunner.AttemptInOrder | src/test_runner.py:36-49 | attempted stages keep the order unit, integration, e2e |
| TestRunner.AttemptOnlyLastFails | src/test_runner.py:36-49 | every attempted stage except the last passed |
| TestRunner.AttemptComplete | src/test_runner.py:36-49 | a requested stage was attempted, or an earlier stage failed |
| TestRunner.PipelineSkipsWithoutBuildFile | src/test_runner.py:29-31 | the run is skipped with "No build file found" exactly when no build descriptor is present |
| TestRunner.PipelineRan | src/test_runner.py:33-52 | exposes the definition for a detected project type: the outcome is the attempted stages, failed iff one of them failed; the status rule's consequences are in `PipelineGating` and `PipelineComplete` |
| TestRunner.PipelineGating | src/test_runner.py:33-51 | attempted stages are requested ones, in order; only the last may fail; the overall status is failed iff the last attempted stage failed |
| TestRunner.PipelineComplete | src/test_runner.py:33-51 | in a passing run every requested stage was run |
| TestRunner.UnitFailureStopsPipeline | src/test_runner.py:36-49 | a failing unit stage is the only stage run, and the run failed |
| TestRunner.AttemptDependsOnMembership | src/test_runner.py:36-49 | the attempted stages depend only on which stage names the request holds |
| TestRunner.PipelineDependsOnMembership | src/test_runner.py:36-49 | requests with the same stage names, in any order or with repeats, give the same outcome |
| TestRunner.AllStagesPass | src/test_runner.py:36-49 | when all three stages are requested and each passes over the directory its predecessor left, all three are attempted in order, with those results |
| TestRunner.MavenWithoutToolPasses | src/test_runner.py:92-96 | a Maven project without `mvn` and without reports runs all three default stages over the mock report, and passes |
| DbChecker.PiecesAtIsGreedy | src/db_checker.py:41 | when every literal starts outside its run's class, any way the pieces of the `@Table` pattern match uses the greedy run widths |
| DbChecker.TablePiecesDeterministic | src/db_checker.py:41 | the `@Table` pattern's runs (`\s*` and `[^"]+`) never contain the literal that follows them |
| DbChecker.TableNameAtIff | src/db_checker.py:41 | the matcher without backtracking gives the pattern's capture at a position exactly when the pattern matches there |
| DbChecker.FirstTableName | src/db_checker.py:41-43 | `re.search`: None exactly when the pattern matches nowhere; otherwise the capture of a match with no match further left |
| DbChecker.CapturedNameIsQuoteFree | src/db_checker.py:41-43 | a captured table name is non-empty and contains no `"` |
| DbChecker.DBChecker.constructor | src/db_checker.py:6-9 | a new checker keeps the connection string and has no engine and no inspector |
| DbChecker.DBChecker.Connect | src/db_checker.py:11-24 | answers true exactly when a non-empty URL is configured and the database is reachable; the engine is set whenever creating it succeeds; the inspector only on success; otherwise nothing changes |
| DbChecker.CheckJpaEntity | src/db_checker.py:33-56 | error iff the read raises something other than FileNotFoundError; a missing file gives the skip record without a table; no record iff no annotation; otherwise the leftmost annotation's table with `verified`, `error: table not found` or `skipped (no db connection)` exactly as the inspector has, lacks or is missing |
| DbChecker.CheckMybatisMapper | src/db_checker.py:58-64 | the fixed `checked (basic)` MyBatis record for the file, without a table |
| DbChecker.CheckFile | src/db_checker.py:26-31 | `.java` files get the JPA check, `.xml` files the MyBatis record, other files nothing; a record is always about the given file |
| DbChecker.JavaIsNotXml | src/db_checker.py:27-30 | no path ends with both `.java` and `.xml` |
| DbChecker.ConnectWithoutUrlSkips | src/db_checker.py:46-52 | a checker built without a URL reports every annotated table as `skipped (no db connection)`, whatever connecting meets |
| LlmProviders.Get | src/llm_providers.py:87-93 | `kwargs.get(key, default)`: the stored value when the key is present, even None; the default otherwise |
| LlmProviders.GetProvider | src/llm_providers.py:83-95 | an unknown name raises `Unknown provider: <name>`; a known one gives the provider of that name, with the model, API key and base URL taken from the arguments or the defaults |
| LlmProviders.GetProviderRoundTrip | src/llm_providers.py:83-95 | every provider is rebuilt by the factory from its own name and settings |
| LlmProviders.ExplicitModelKept | src/llm_providers.py:86-93 | a `model` key overrides the default even when its value is None |
| LlmProviders.OllamaReply | src/llm_providers.py:66-81 | status 200 gives the `response` field or `No response`; another status gives `Ollama Error: <status> - <body>`; a raised request or JSON decoding gives the connection-error text |
| LlmProviders.GenerateReview | src/llm_providers.py:18-81 | an SDK provider returns the reply text, or its own error prefix plus the exception text; Ollama returns its HTTP reply; the call never fails |
| LlmProviders.ErrorsNameTheProvider | src/llm_providers.py:28-81 | error texts of two different providers never coincide |
| LlmProviders.OllamaFailuresDistinct | src/llm_providers.py:76-81 | an Ollama status error never reads like an Ollama connection error |
| LlmProviders.OllamaStatusReadable | src/llm_providers.py:76-79 | the status code in an Ollama error text reads back as the number received |
| LlmReviewer.ComplianceInstruction | src/llm_reviewer.py:18-26 | the guide paragraph is non-empty exactly for the `korea_public` mode |
| LlmReviewer.PromptQuotes | src/llm_reviewer.py:28-37 | the prompt contains the compliance paragraph, the file path and the code verbatim at their places; only the paragraph depends on the mode |
| LlmReviewer.LLMReviewer.constructor | src/llm_reviewer.py:4-10 | the reviewer holds the factory's provider, or None exactly when the factory raises: for an unknown name, or for an SDK-backed provider whose client cannot be built (Ollama builds none) |
| LlmReviewer.ReviewCode | src/llm_reviewer.py:12-42 | without a provider the mock text; otherwise the provider's review of the prompt for this file, code and mode |
| LlmReviewer.GetCodeContent | src/llm_reviewer.py:44-49 | the file's text; the empty string for a missing file; any other read failure propagates |
| LlmReviewer.UnknownProviderGivesMock | src/llm_reviewer.py:4-42 | a reviewer built with an unknown provider name always answers with the mock text |
| Notifier.Color | src/notifier.py:17-21 | red exactly for `error`, yellow exactly for `warning`, green for every other status |
| Notifier.SlackNotifier.SendNotification | src/notifier.py:7-31 | no request exactly when the webhook URL is missing or empty; otherwise one POST to the webhook with one attachment carrying the status colour, the message and markdown in `text` |
| Notifier.OtherStatusesLookAlike | src/notifier.py:17-21 | all statuses other than `error` and `warning` give the same request |
| Review.NewPaths | src/main.py:81-82 | the new path of each change, in order, one for one |
| Review.FetchChangedFiles | src/main.py:80-82 | the loop appending `new_path` collects exactly the new paths |
| Review.ChangedFiles | src/main.py:74-86 | local files first; else, in GitLab mode, the merge request's new paths; else the two mock files |
| Review.SelectFiles | src/main.py:74-86 | the method gives `ChangedFiles` |
| Review.ProviderTakesOptions | src/main.py:64-69 | as `main` always passes `model` and `base_url`, the provider's model is the `--llm-model` option (None when absent) and the Ollama URL is the `--ollama-url` option; no provider iff the name is unknown, or an SDK-backed provider's client cannot be built |
| Review.SetUp | src/main.py:56-71 | after set-up and `connect`, the checker is consistent (an inspector only over an engine, an engine only for the configured non-empty URL), its inspector is there exactly when a URL is configured and the database is reachable, and the reviewer holds `ProviderFor` |
| Review.FixCalls | src/main.py:91-97 | the fixer sees every changed file in order when auto-fix is on, and no file otherwise |
| Review.AutoFix | src/main.py:91-97 | the fix loop calls the fixer on exactly `FixCalls` |
| Review.GatherFails | src/main.py:202-208 | a per-file task raises exactly when some file's step raises, and then with the first such file's error |
| Review.GatherAppend | src/main.py:202-208 | a per-file task over two lists of files is the task over the first, then over the second |
| Review.GatherFrom | src/main.py:202-208 | every result a per-file task gathers comes from one of its files |
| Review.FileFindings | src/main.py:186-198 | per file: the lint record when a linter applies, then the compliance record when a standard is set, then the secret-scan record, all about that file |
| Review.StaticFindings | src/main.py:183-200 | the static task never raises and yields each file's findings in file order |
| Review.AnalyseFile | src/main.py:186-198 | the loop body appends exactly the file's findings |
| Review.RunStaticAnalysisTask | src/main.py:183-200 | the loop over the files gives `StaticFindings` |
| Review.RunDbChecksTask | src/main.py:202-208 | each file's database record in file order, files without one dropped; the first raised read error ends the task |
| Review.DbStepAboutFile | src/main.py:205-207 | one file's database check yields only records about that file, and only for Java or XML files |
| Review.DbFindingsAreAboutFiles | src/main.py:202-208 | every database record names one of the changed files, which is a Java or XML file |
| Review.ReviewFiles | src/main.py:131-135 | one `**file**: review` comment per file with non-empty content, in file order; a raised read error ends the loop |
| Review.AiCommentPerFile | src/main.py:131-135 | a missing or empty file gets no comment; a non-empty readable file gets exactly one, starting with its bold name |
| Review.TestStages | src/main.py:113-118 | no stages iff tests are skipped; `--only-unit` wins over `--only-e2e`; otherwise all three stages |
| Review.SelectedStagesOnly | src/main.py:105-124 | skipped tests give the default skip record; with `--only-unit` only the unit stage runs, with `--only-e2e` alone only the e2e stage |
| Review.RunTestTask | src/main.py:105-124 | the test task gives `TestResult` |
| Review.TestStatus | src/main.py:127 | the reported status is `passed` exactly when the stages ran and passed |
| Review.NotifyStatus | src/main.py:177 | the notification is `success` exactly when the tests ran and passed, so skipped tests notify `error` |
| Review.Notification | src/main.py:176-179 | a request is sent exactly when a webhook is configured; its one attachment is green on success and red otherwise |
| Review.Notify | src/main.py:176-179 | the notification step gives `Notification` |
| Review.RunReview | src/main.py:16-179 | stops at once exactly when GitLab mode lacks an id; else a database read error ends the run, then an AI read error; else the run completes with the changed files, the fix calls, a report of every task's results, a GitLab post exactly in GitLab mode, and the notification; the GitLab client and report writer are assumed not to raise |

## Left out

- Argument parsing and environment variables: the options arrive as a record. An absent `--local-files` is the empty list, which `main` treats the same way.
- Console output and logging are left out, including the Slack POST's outcome, which the notifier only logs.
- The GitLab client is not part of this model: fetching changes is an input, and posting is a flag on the finished run. So is the summary text it posts.
- The report writer is not part of this model: `report.json`, the HTML and the PDF. The PDF path is an input of the notification message.
- The fixer (`fix_file`) is not part of this model. The model records which files it is called on.
- The thread pool is left out, and the tasks are composed one after the other. Their results are joined in the source's order: static, then database, then tests. This assumes the test commands (`mvn`, `pytest`, `playwright`, `npm` and the tests they start) do not change the files the static and database tasks read. If they did, the source's result would depend on thread timing, which the model does not capture.
- An exception in the test task, or in static analysis outside its own `try`, does not occur in the model. Its oracles never fail.
- `Review.RunReview` assumes five steps of `main` never raise, so a run whose database and AI tasks succeed always completes and notifies. The five steps are: building the GitLab client (its project lookup), `get_mr_changes`, writing `report.json`, the report writer's `generate_report` (template lookup and HTML, PDF and redirect writes), and `post_comment`. In the source any of them can raise and end `main` before the notification.
- `subprocess.run`, `shutil.which` and `os.makedirs` are the `Env` oracle: whether a tool is found, and which report files its command writes. An exception from running a command is folded into "the command wrote these files".
- The order of a report directory's listing is an input. `os.listdir` promises no order, and that order decides the order of a stage's cases. `TestRunner.Put` fixes the order after a write: a same-named file is replaced in place, and a new file is appended at the end.
- XML parsing is abstracted to the parsed attributes and test cases of each report file. A report whose counter attribute is not an integer counts as a parse failure. In the source the counters added before the bad attribute stay added; that partial update is left out.
- The first `Analyzer` class in `src/analyzer.py` is shadowed by the second, so it is not part of this model. `run_command` of the second class is never called, and it is left out.
- Regular expressions and `str.split` use ASCII classes for `\d`, `\w` and `\s`. `\s` includes the separators U+001C to U+001F. Python's `str` patterns and `str.split` also accept non-ASCII Unicode digits, letters and whitespace, such as U+0085 and U+00A0.
- File encodings are not modelled. A file is readable or not for every reader alike, although the analysers decode UTF-8 and the other readers use the platform default.
- SQLAlchemy is an oracle of what `connect` meets. An exception raised by `has_table` is left out.
- The SDK and HTTP calls are oracles from the prompt to a reply or a raised error. The request itself (URL, JSON body, model, system message, `max_tokens`) is not modelled, and neither is an OpenAI reply whose content is None.
- `LlmProviders.OllamaReply` sees the decoded Ollama body as a map from strings to strings. A `response` field that is null or not a string is not expressible; Python would return that value as it is.
- `str(e)` of SDK, HTTP and database exceptions is an uninterpreted reason string.
- `Workspace.ErrorText` writes the missing-file message with the plain path between single quotes. Python uses `repr(path)`, which differs for paths containing a quote or a backslash.
- Building an SDK client (OpenAI, Anthropic, Gemini) can raise, for example without an API key. Whether it does is an input flag of the reviewer's constructor, and the flag does not affect Ollama, which builds no client.
- `Notifier.SlackNotifier.SendNotification` leaves out the POST's headers and the JSON text of the payload. The payload is a record.
- The webhook server and the GitLab client modules are not part of this model.
