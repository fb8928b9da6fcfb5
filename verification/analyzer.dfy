/**
 * The static analysers of src/analyzer.py (its second `Analyzer` class, which
 * shadows the first): extension-based lint dispatch to stub linters, and the
 * content heuristics of the compliance check and the secret scan.
 */
module Analyzer {
  import opened Wrappers
  import opened Text
  import opened Workspace

  datatype Status = Passed | Failed | Error

  /** One analyser result: `{"tool", "file", "status", "errors"}`. */
  datatype Finding = Finding(tool: string, file: string, status: Status, errors: seq<string>)

  // ---------------------------------------------------------------- lint

  function RunPylint(path: string): Finding {
    Finding("pylint", path, Passed, [])
  }

  function RunEslint(path: string): Finding {
    Finding("eslint", path, Passed, [])
  }

  function RunCheckstyle(path: string): Finding {
    Finding("checkstyle", path, Passed, [])
  }

  /** Picks the linter by the file's extension; other files have no linter. */
  function RunLint(path: string): (r: Option<Finding>)
    ensures r.None? <==>
      !(EndsWith(path, ".py") || EndsWith(path, ".js") || EndsWith(path, ".ts") || EndsWith(path, ".java"))
    ensures r.Some? ==> r.value.file == path && r.value.status == Passed && r.value.errors == []
    ensures r.Some? && r.value.tool == "pylint" <==> EndsWith(path, ".py")
    ensures r.Some? && r.value.tool == "eslint" <==> EndsWith(path, ".js") || EndsWith(path, ".ts")
    ensures r.Some? && r.value.tool == "checkstyle" <==> EndsWith(path, ".java")
  {
    SuffixesExclusive(path);
    if EndsWith(path, ".py") then Some(RunPylint(path))
    else if EndsWith(path, ".js") || EndsWith(path, ".ts") then Some(RunEslint(path))
    else if EndsWith(path, ".java") then Some(RunCheckstyle(path))
    else None
  }

  /** A path ends with at most one of the linted extensions. */
  lemma SuffixesExclusive(path: string)
    ensures EndsWith(path, ".py") ==> !EndsWith(path, ".js") && !EndsWith(path, ".ts") && !EndsWith(path, ".java")
    ensures EndsWith(path, ".java") ==> !EndsWith(path, ".js") && !EndsWith(path, ".ts")
  {
    var n := |path|;
    if EndsWith(path, ".py") {
      assert path[n - 1] == 'y';
    }
    if EndsWith(path, ".java") {
      assert path[n - 1] == 'a';
      assert path[n - 2..][1] == 'a';
    }
  }

  // ---------------------------------------------------------------- hardcoded IPv4 address

  /** `\b` at position `k`: exactly one of the characters around `k` is a word character. */
  predicate WordBoundary(s: string, k: nat)
    requires k <= |s|
  {
    (k > 0 && IsWordChar(s[k - 1])) != (k < |s| && IsWordChar(s[k]))
  }

  /** A group `\d{1,3}` of width `w` at `p`, followed by `\.`. */
  predicate DottedGroup(s: string, p: nat, w: nat) {
    1 <= w <= 3 && AllIn(s, p, w, IsDigit) && p + w < |s| && s[p + w] == '.'
  }

  /** The last group `\d{1,3}\b`, of width `w` at `p`. */
  predicate FinalGroup(s: string, p: nat, w: nat) {
    1 <= w <= 3 && AllIn(s, p, w, IsDigit) && WordBoundary(s, p + w)
  }

  /**
   * Digit groups of the widths `ws` occur one after the other from `p`: each
   * but the last is followed by `\.`, the last ends at a word boundary.
   */
  predicate GroupsAt(s: string, p: nat, ws: seq<nat>)
    decreases |ws|
  {
    if |ws| == 0 then false
    else if |ws| == 1 then FinalGroup(s, p, ws[0])
    else DottedGroup(s, p, ws[0]) && GroupsAt(s, p + ws[0] + 1, ws[1..])
  }

  /**
   * `\b\d{1,3}\.\d{1,3}\.\d{1,3}\.\d{1,3}\b` matches `s` at `i`, its four digit
   * groups having the widths `ws`.
   */
  predicate QuadAt(s: string, i: nat, ws: seq<nat>) {
    i <= |s| && WordBoundary(s, i) && |ws| == 4 && GroupsAt(s, i, ws)
  }

  /** `re.search` of the IPv4 pattern succeeds: some position and some group widths match. */
  ghost predicate HasDottedQuad(s: string) {
    exists i: nat, ws: seq<nat> :: QuadAt(s, i, ws)
  }

  /** The widths a matcher without backtracking takes for `k` groups from `p`: each the whole run of digits. */
  function GreedyWidths(s: string, p: nat, k: nat): (ws: seq<nat>)
    ensures |ws| == k
    decreases k
  {
    if k == 0 then []
    else var w := Span(s, p, IsDigit); [w] + GreedyWidths(s, p + w + 1, k - 1)
  }

  /** The matcher at one position without backtracking. */
  predicate QuadStartsAt(s: string, i: nat) {
    QuadAt(s, i, GreedyWidths(s, i, 4))
  }

  /** A group that a dot follows spans the whole run of digits. */
  lemma DottedGroupIsGreedy(s: string, p: nat, w: nat)
    requires DottedGroup(s, p, w)
    ensures w == Span(s, p, IsDigit)
  {
    SpanUnique(s, p, w, IsDigit);
  }

  /** So does the last group, which a word boundary ends. */
  lemma FinalGroupIsGreedy(s: string, p: nat, w: nat)
    requires FinalGroup(s, p, w)
    ensures w == Span(s, p, IsDigit)
  {
    assert IsDigit(s[p + w - 1]);
    SpanUnique(s, p, w, IsDigit);
  }

  /** Whatever widths match, they are the greedy ones: backtracking never finds another match. */
  lemma {:induction false} GroupsAtIsGreedy(s: string, p: nat, ws: seq<nat>)
    requires GroupsAt(s, p, ws)
    ensures ws == GreedyWidths(s, p, |ws|)
    decreases |ws|
  {
    if |ws| == 1 {
      FinalGroupIsGreedy(s, p, ws[0]);
    } else {
      DottedGroupIsGreedy(s, p, ws[0]);
      GroupsAtIsGreedy(s, p + ws[0] + 1, ws[1..]);
      assert ws == [ws[0]] + ws[1..];
    }
  }

  /** The pattern matches at `i` exactly when the greedy matcher does. */
  lemma QuadStartsAtIff(s: string, i: nat)
    ensures QuadStartsAt(s, i) <==> exists ws: seq<nat> :: QuadAt(s, i, ws)
  {
    if ws: seq<nat> :| QuadAt(s, i, ws) {
      GroupsAtIsGreedy(s, i, ws);
    }
  }

  /** Scans the positions from `from` on for a match. */
  function FindsDottedQuad(s: string, from: nat): (found: bool)
    requires from <= |s|
    ensures found <==> exists i: nat, ws: seq<nat> :: from <= i && QuadAt(s, i, ws)
    decreases |s| - from
  {
    QuadStartsAtIff(s, from);
    if from == |s| then
      assert forall i: nat, ws: seq<nat> :: from <= i && QuadAt(s, i, ws) ==> i < |s|;
      false
    else
      QuadStartsAt(s, from) || FindsDottedQuad(s, from + 1)
  }

  /** The hardcoded-IP heuristic: the IPv4 pattern occurs somewhere in `content`. */
  function HasHardcodedIp(content: string): (b: bool)
    ensures b <==> HasDottedQuad(content)
  {
    FindsDottedQuad(content, 0)
  }

  // ---------------------------------------------------------------- compliance check

  const LoggingViolation := "Violation: Use of standard output for logging (CWE-117). Use a Logger."
  const WeakCryptoViolation := "Violation: Use of weak encryption algorithm (MD5/SHA1). Use SHA-256 or higher."
  const HardcodedIpViolation := "Violation: Hardcoded IP address detected."

  predicate LogsToStdout(content: string) {
    Contains(content, "System.out.print") || Contains(content, "console.log") || Contains(content, "print(")
  }

  /** Case-sensitive. */
  predicate UsesWeakHash(content: string) {
    Contains(content, "MD5") || Contains(content, "SHA1")
  }

  lemma ViolationMessagesDistinct()
    ensures LoggingViolation != WeakCryptoViolation && WeakCryptoViolation != HardcodedIpViolation
    ensures LoggingViolation != HardcodedIpViolation
  {
    assert |LoggingViolation| == 70 && |WeakCryptoViolation| == 78 && |HardcodedIpViolation| == 41;
  }

  /** The violations the compliance heuristics find in `content`, in reporting order. */
  function ComplianceViolations(content: string): seq<string> {
    (if LogsToStdout(content) then [LoggingViolation] else [])
    + (if UsesWeakHash(content) then [WeakCryptoViolation] else [])
    + (if HasHardcodedIp(content) then [HardcodedIpViolation] else [])
  }

  /**
   * Each heuristic contributes its message exactly when it fires, nothing
   * else is reported, no message twice, and in the fixed order: logging
   * first, the hard-coded IP last.
   */
  lemma ComplianceViolationsMeaning(content: string)
    ensures var v := ComplianceViolations(content);
      && (LoggingViolation in v <==> LogsToStdout(content))
      && (WeakCryptoViolation in v <==> UsesWeakHash(content))
      && (HardcodedIpViolation in v <==> HasDottedQuad(content))
      && (forall m :: m in v ==> m == LoggingViolation || m == WeakCryptoViolation || m == HardcodedIpViolation)
      && (forall i, j :: 0 <= i < j < |v| ==> v[i] != v[j])
      && (LoggingViolation in v ==> v[0] == LoggingViolation)
      && (HardcodedIpViolation in v ==> v[|v| - 1] == HardcodedIpViolation)
  {
    ViolationMessagesDistinct();
    OrderedPicks(LogsToStdout(content), UsesWeakHash(content), HasHardcodedIp(content),
                 LoggingViolation, WeakCryptoViolation, HardcodedIpViolation);
  }

  /** Picking among three distinct messages keeps exactly the picked ones, each once, in their order. */
  lemma OrderedPicks(a: bool, b: bool, c: bool, x: string, y: string, z: string)
    requires x != y && y != z && x != z
    ensures var v := (if a then [x] else []) + (if b then [y] else []) + (if c then [z] else []);
      && (x in v <==> a) && (y in v <==> b) && (z in v <==> c)
      && (forall m :: m in v ==> m == x || m == y || m == z)
      && (forall i, j :: 0 <= i < j < |v| ==> v[i] != v[j])
      && (a ==> v[0] == x) && (c ==> v[|v| - 1] == z)
  {
  }

  /** The result of `run_compliance_check` for a file whose read gave `read`. */
  function Compliance(path: string, read: FileRead): (r: Finding)
    ensures r.tool == "compliance" && r.file == path
    ensures read.Read? ==> r.errors == ComplianceViolations(read.content)
    ensures read.Read? ==> (r.status == Failed <==> r.errors != []) && (r.status == Passed <==> r.errors == [])
    ensures !read.Read? ==> r.status == Error && r.errors == [ErrorText(path, read)]
  {
    match read
    case Read(content) =>
      var v := ComplianceViolations(content);
      Finding("compliance", path, if v == [] then Passed else Failed, v)
    case _ => Finding("compliance", path, Error, [ErrorText(path, read)])
  }

  /**
   * `run_compliance_check`: appends the violations one heuristic at a time.
   * The `standard` it is given selects nothing.
   */
  method RunComplianceCheck(path: string, read: FileRead, standard: string) returns (r: Finding)
    ensures r == Compliance(path, read)
  {
    if !read.Read? {
      return Finding("compliance", path, Error, [ErrorText(path, read)]);
    }
    var content := read.content;
    var violations: seq<string> := [];
    var status := Passed;
    if LogsToStdout(content) {
      violations := violations + [LoggingViolation];
      status := Failed;
    }
    if UsesWeakHash(content) {
      violations := violations + [WeakCryptoViolation];
      status := Failed;
    }
    if HasHardcodedIp(content) {
      violations := violations + [HardcodedIpViolation];
      status := Failed;
    }
    assert violations == ComplianceViolations(content);
    assert status == Failed <==> violations != [];
    r := Finding("compliance", path, status, violations);
  }

  // ---------------------------------------------------------------- secret scan

  const SecretMessage := "Potential Secret detected (API Key or Password)."

  predicate LooksLikeSecret(content: string) {
    Contains(content, "sk-") || Contains(content, "ghp_") || Contains(content, "password =")
  }

  /** The result of `run_secret_scan` for a file whose read gave `read`. */
  function SecretScan(path: string, read: FileRead): (r: Finding)
    ensures r.tool == "secret-scan" && r.file == path
    ensures read.Read? && LooksLikeSecret(read.content) ==> r.status == Failed && r.errors == [SecretMessage]
    ensures read.Read? && !LooksLikeSecret(read.content) ==> r.status == Passed && r.errors == []
    ensures !read.Read? ==> r.status == Error && r.errors == [ErrorText(path, read)]
  {
    match read
    case Read(content) =>
      if LooksLikeSecret(content) then Finding("secret-scan", path, Failed, [SecretMessage])
      else Finding("secret-scan", path, Passed, [])
    case _ => Finding("secret-scan", path, Error, [ErrorText(path, read)])
  }

  /** `run_secret_scan`: one message when any secret marker occurs. */
  method RunSecretScan(path: string, read: FileRead) returns (r: Finding)
    ensures r == SecretScan(path, read)
  {
    var violations: seq<string> := [];
    var status := Passed;
    if !read.Read? {
      return Finding("secret-scan", path, Error, [ErrorText(path, read)]);
    }
    var content := read.content;
    if LooksLikeSecret(content) {
      violations := violations + [SecretMessage];
      status := Failed;
    }
    r := Finding("secret-scan", path, status, violations);
  }
}
