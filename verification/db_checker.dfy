/**
 * The schema checker of src/db_checker.py: a `DBChecker` object that may hold
 * a database connection, and the per-file checks that extract the table named
 * by a JPA `@Table(name="…")` annotation and look it up in the database.
 *
 * The database is an oracle: connecting either fails (creating the engine, or
 * inspecting it) or reaches a database whose tables are a set of names.
 */
module DbChecker {
  import opened Wrappers
  import opened Text
  import opened Workspace

  // ---------------------------------------------------------------- the annotation pattern

  /**
   * One piece of the pattern: a run of `member` characters at least `least`
   * long, then the literal `lit`.
   */
  datatype Piece = Piece(member: char -> bool, least: nat, lit: string)

  predicate LitAt(s: string, p: nat, lit: string) {
    p + |lit| <= |s| && s[p..p + |lit|] == lit
  }

  predicate NotQuote(c: char) {
    c != '"'
  }

  /**
   * `@Table\s*\(\s*name\s*=\s*"([^"]+)"` after its leading `@Table`: four
   * whitespace runs each ending at a literal, then the captured run of
   * non-quote characters, closed by a quote.
   */
  const TablePieces: seq<Piece> := [
    Piece(IsSpace, 0, "("), Piece(IsSpace, 0, "name"), Piece(IsSpace, 0, "="), Piece(IsSpace, 0, "\""),
    Piece(NotQuote, 1, "\"")]

  /** The pieces match `s` from `p` with run widths `ws`. */
  predicate PiecesAt(s: string, p: nat, pieces: seq<Piece>, ws: seq<nat>)
    decreases |pieces|
  {
    |ws| == |pieces| &&
    (pieces == [] ||
      (AllIn(s, p, ws[0], pieces[0].member) && ws[0] >= pieces[0].least &&
       LitAt(s, p + ws[0], pieces[0].lit) &&
       PiecesAt(s, p + ws[0] + |pieces[0].lit|, pieces[1..], ws[1..])))
  }

  /** Where the run of the last piece starts. */
  function LastRunStart(p: nat, pieces: seq<Piece>, ws: seq<nat>): nat
    requires |ws| == |pieces| && pieces != []
    decreases |pieces|
  {
    if |pieces| == 1 then p else LastRunStart(p + ws[0] + |pieces[0].lit|, pieces[1..], ws[1..])
  }

  /** `re.search` finds the annotation pattern at `i`, with run widths `ws` and capture `name`. */
  predicate TableAt(s: string, i: nat, ws: seq<nat>, name: string) {
    LitAt(s, i, "@Table") && PiecesAt(s, i + 6, TablePieces, ws) &&
    var q := LastRunStart(i + 6, TablePieces, ws);
    q + ws[4] <= |s| && name == s[q..q + ws[4]]
  }

  /** Each run is followed by a literal whose first character ends the run. */
  predicate Deterministic(pieces: seq<Piece>) {
    forall k :: 0 <= k < |pieces| ==> pieces[k].lit != [] && !pieces[k].member(pieces[k].lit[0])
  }

  /** The widths a matcher without backtracking takes: each run as long as it goes. */
  function GreedyWidths(s: string, p: nat, pieces: seq<Piece>): (ws: seq<nat>)
    ensures |ws| == |pieces|
    decreases |pieces|
  {
    if pieces == [] then []
    else var w := Span(s, p, pieces[0].member); [w] + GreedyWidths(s, p + w + |pieces[0].lit|, pieces[1..])
  }

  /** Whatever widths match a deterministic pattern, they are the greedy ones. */
  lemma {:induction false} PiecesAtIsGreedy(s: string, p: nat, pieces: seq<Piece>, ws: seq<nat>)
    requires Deterministic(pieces) && PiecesAt(s, p, pieces, ws)
    ensures ws == GreedyWidths(s, p, pieces)
    decreases |pieces|
  {
    if pieces != [] {
      var pc := pieces[0];
      assert AllIn(s, p, ws[0], pc.member) && LitAt(s, p + ws[0], pc.lit);
      assert pc.lit != [] && !pc.member(pc.lit[0]);
      RunEndsAtLiteral(s, p, ws[0], pc);
      DeterministicTail(pieces);
      var q := p + ws[0] + |pc.lit|;
      assert PiecesAt(s, q, pieces[1..], ws[1..]);
      PiecesAtIsGreedy(s, q, pieces[1..], ws[1..]);
      GreedyWidthsCons(s, p, pieces);
      assert ws == [ws[0]] + ws[1..];
    }
  }

  lemma GreedyWidthsCons(s: string, p: nat, pieces: seq<Piece>)
    requires pieces != []
    ensures var w := Span(s, p, pieces[0].member);
      GreedyWidths(s, p, pieces) == [w] + GreedyWidths(s, p + w + |pieces[0].lit|, pieces[1..])
  {
  }

  /** A run followed by a literal that cannot continue it is as long as it goes. */
  lemma RunEndsAtLiteral(s: string, p: nat, w: nat, pc: Piece)
    requires AllIn(s, p, w, pc.member) && LitAt(s, p + w, pc.lit)
    requires pc.lit != [] && !pc.member(pc.lit[0])
    ensures Span(s, p, pc.member) == w
  {
    assert s[p + w] == s[p + w..p + w + |pc.lit|][0];
    SpanUnique(s, p, w, pc.member);
  }

  lemma DeterministicTail(pieces: seq<Piece>)
    requires pieces != [] && Deterministic(pieces)
    ensures Deterministic(pieces[1..])
  {
    forall k | 0 <= k < |pieces| - 1 ensures pieces[1..][k] == pieces[k + 1] {
    }
  }

  lemma TablePiecesDeterministic()
    ensures Deterministic(TablePieces)
  {
    forall k | 0 <= k < |TablePieces| ensures TablePieces[k].lit != [] && !TablePieces[k].member(TablePieces[k].lit[0]) {
      assert TablePieces[k].lit[0] in "(n=\"";
    }
  }

  /** The match at one position without backtracking: the capture, when the pattern matches there. */
  function TableNameAt(s: string, i: nat): (r: Option<string>) {
    var ws := GreedyWidths(s, i + 6, TablePieces);
    if LitAt(s, i, "@Table") && PiecesAt(s, i + 6, TablePieces, ws) then
      var q := LastRunStart(i + 6, TablePieces, ws);
      if q + ws[4] <= |s| then Some(s[q..q + ws[4]]) else None
    else None
  }

  /** The matcher without backtracking finds exactly the matches of the pattern. */
  lemma TableNameAtIff(s: string, i: nat)
    ensures forall ws, name :: TableAt(s, i, ws, name) ==> TableNameAt(s, i) == Some(name)
    ensures TableNameAt(s, i).Some? ==> TableAt(s, i, GreedyWidths(s, i + 6, TablePieces), TableNameAt(s, i).value)
  {
    forall ws, name | TableAt(s, i, ws, name) ensures TableNameAt(s, i) == Some(name) {
      TablePiecesDeterministic();
      PiecesAtIsGreedy(s, i + 6, TablePieces, ws);
    }
  }

  /** The pattern matches somewhere at or after `from`. */
  ghost predicate MatchFrom(s: string, from: nat) {
    exists i: nat, ws, name :: from <= i && TableAt(s, i, ws, name)
  }

  /**
   * `re.search(...).group(1)` over `s[from..]`: the capture of the leftmost
   * match, or None when the pattern matches nowhere.
   */
  function FirstTableName(s: string, from: nat): (r: Option<string>)
    ensures r.None? <==> !MatchFrom(s, from)
    ensures r.Some? ==> exists i: nat, ws :: from <= i && TableAt(s, i, ws, r.value) && !MatchBetween(s, from, i)
    decreases |s| - from
  {
    TableNameAtIff(s, from);
    if from >= |s| then
      assert !MatchFrom(s, from) by {
        forall i: nat, ws, name | from <= i ensures !TableAt(s, i, ws, name) {
        }
      }
      None
    else
      match TableNameAt(s, from)
      case Some(name) =>
        assert !MatchBetween(s, from, from);
        Some(name)
      case None =>
        var r := FirstTableName(s, from + 1);
        assert !MatchBetween(s, from, from + 1) by {
          forall j: nat, ws, name | from <= j < from + 1 ensures !TableAt(s, j, ws, name) {
          }
        }
        assert MatchFrom(s, from) ==> MatchFrom(s, from + 1);
        if r.Some? then
          assert forall i: nat :: !MatchBetween(s, from + 1, i) && from + 1 <= i ==> !MatchBetween(s, from, i);
          r
        else r
  }

  /** No match starts in `[from, to)`. */
  ghost predicate MatchBetween(s: string, from: nat, to: nat) {
    exists j: nat, ws, name :: from <= j < to && TableAt(s, j, ws, name)
  }

  /** The last run of a match lies inside `s`, is at least as long as its piece demands and holds only its members. */
  lemma {:induction false} LastRunMatches(s: string, p: nat, pieces: seq<Piece>, ws: seq<nat>)
    requires pieces != [] && PiecesAt(s, p, pieces, ws)
    ensures AllIn(s, LastRunStart(p, pieces, ws), ws[|ws| - 1], pieces[|pieces| - 1].member)
    ensures ws[|ws| - 1] >= pieces[|pieces| - 1].least
    decreases |pieces|
  {
    if |pieces| > 1 {
      LastRunMatches(s, p + ws[0] + |pieces[0].lit|, pieces[1..], ws[1..]);
    }
  }

  /** A captured table name is non-empty and holds no quote character. */
  lemma CapturedNameIsQuoteFree(s: string, i: nat, ws: seq<nat>, name: string)
    requires TableAt(s, i, ws, name)
    ensures name != [] && forall k :: 0 <= k < |name| ==> name[k] != '"'
  {
    LastRunMatches(s, i + 6, TablePieces, ws);
  }

  // ---------------------------------------------------------------- the checker

  /** What one connection attempt meets. */
  datatype ConnectAttempt =
    | EngineFails(reason: string)         // `create_engine` raises (a malformed URL, a missing driver)
    | InspectFails(reason: string)        // `inspect` raises (the database cannot be reached)
    | Reachable(tables: set<string>)      // the database and the tables it holds

  datatype CheckKind = Jpa | MyBatis

  /** A result record: `{"file", "type", "table"?, "status"}`. */
  datatype DbFinding = DbFinding(file: string, kind: CheckKind, table: Option<string>, status: string)

  const Verified := "verified"
  const TableNotFound := "error: table not found"
  const NoConnection := "skipped (no db connection)"
  const FileMissing := "skipped (file not found)"
  const CheckedBasic := "checked (basic)"

  class DBChecker {
    const connectionString: Option<string>
    /** The URL of the engine created, if any. */
    var engine: Option<string>
    /** The tables the inspector sees, if an inspector was created. */
    var inspector: Option<set<string>>

    /** An inspector exists only over an engine, and an engine only for the configured, non-empty URL. */
    predicate Valid()
      reads this
    {
      (inspector.Some? ==> engine.Some?) &&
      (engine.Some? ==> Truthy(connectionString) && engine == connectionString)
    }

    constructor(connectionString: Option<string>)
      ensures this.connectionString == connectionString
      ensures engine.None? && inspector.None?
      ensures Valid()
    {
      this.connectionString := connectionString;
      engine := None;
      inspector := None;
    }

    /**
     * `connect`: without a non-empty URL it does nothing and answers false;
     * otherwise the engine, then the inspector, are set as far as the attempt
     * gets, and the answer is true exactly when both were created.
     */
    method Connect(attempt: ConnectAttempt) returns (ok: bool)
      requires Valid()
      modifies this
      ensures Valid()
      ensures ok <==> Truthy(connectionString) && attempt.Reachable?
      ensures engine == (if Truthy(connectionString) && !attempt.EngineFails? then connectionString else old(engine))
      ensures inspector == (if ok then Some(attempt.tables) else old(inspector))
    {
      if !Truthy(connectionString) {
        return false;
      }
      match attempt
      case EngineFails(_) =>
        ok := false;
      case InspectFails(_) =>
        engine := connectionString;
        ok := false;
      case Reachable(tables) =>
        engine := connectionString;
        inspector := Some(tables);
        ok := true;
    }
  }

  // The checks read only the checker's `inspector`; they take it as a value.

  /**
   * `check_jpa_entity` of a checker whose inspector is `inspector`: the
   * table of the first annotation, looked up when there is an inspector. A
   * missing file gives a skip record without a table; any other read failure
   * is not caught (Err).
   */
  function CheckJpaEntity(inspector: Option<set<string>>, path: string, disk: Disk): (r: Result<Option<DbFinding>, string>)
    ensures r.Err? <==> ReadFile(disk, path).ReadError?
    ensures ReadFile(disk, path).NotFound? ==> r == Ok(Some(DbFinding(path, Jpa, None, FileMissing)))
    ensures ReadFile(disk, path).Read? ==>
      var content := ReadFile(disk, path).content;
      && (r == Ok(None) <==> !MatchFrom(content, 0))
      && (r.Ok? && r.value.Some? ==>
            var f := r.value.value;
            && f.file == path && f.kind == Jpa && f.table.Some?
            && (exists i: nat, ws :: TableAt(content, i, ws, f.table.value) && !MatchBetween(content, 0, i))
            && (f.status == Verified <==> inspector.Some? && f.table.value in inspector.value)
            && (f.status == TableNotFound <==> inspector.Some? && f.table.value !in inspector.value)
            && (f.status == NoConnection <==> inspector.None?))
  {
    match ReadFile(disk, path)
    case NotFound => Ok(Some(DbFinding(path, Jpa, None, FileMissing)))
    case ReadError(reason) => Err(reason)
    case Read(content) =>
      match FirstTableName(content, 0)
      case None => Ok(None)
      case Some(name) =>
        var status :=
          if inspector.Some? then (if name in inspector.value then Verified else TableNotFound)
          else NoConnection;
        Ok(Some(DbFinding(path, Jpa, Some(name), status)))
  }

  /** `check_mybatis_mapper`: a fixed record, without reading the file. */
  function CheckMybatisMapper(path: string): (f: DbFinding)
    ensures f.file == path && f.kind == MyBatis && f.table.None? && f.status == CheckedBasic
  {
    DbFinding(path, MyBatis, None, CheckedBasic)
  }

  /** `check_file`: Java sources get the JPA check, XML files the MyBatis check, other files none. */
  function CheckFile(inspector: Option<set<string>>, path: string, disk: Disk): (r: Result<Option<DbFinding>, string>)
    ensures EndsWith(path, ".java") ==> r == CheckJpaEntity(inspector, path, disk)
    ensures EndsWith(path, ".xml") ==> r == Ok(Some(CheckMybatisMapper(path)))
    ensures !EndsWith(path, ".java") && !EndsWith(path, ".xml") ==> r == Ok(None)
    ensures r.Ok? && r.value.Some? ==> r.value.value.file == path
  {
    JavaIsNotXml(path);
    if EndsWith(path, ".java") then CheckJpaEntity(inspector, path, disk)
    else if EndsWith(path, ".xml") then Ok(Some(CheckMybatisMapper(path)))
    else Ok(None)
  }

  /** No path ends with both extensions. */
  lemma JavaIsNotXml(path: string)
    ensures !(EndsWith(path, ".java") && EndsWith(path, ".xml"))
  {
    if EndsWith(path, ".java") {
      assert path[|path| - 1] == ".java"[4] == 'a';
    }
  }

  /** A checker built without a URL never gets an inspector, so every matched table is reported unchecked. */
  method ConnectWithoutUrlSkips(attempt: ConnectAttempt, content: string, disk: Disk, path: string)
    returns (f: Result<Option<DbFinding>, string>)
    requires path in disk && disk[path] == Readable(content) && MatchFrom(content, 0)
    ensures f.Ok? && f.value.Some? && f.value.value.status == NoConnection
  {
    var checker := new DBChecker(None);
    var ok := checker.Connect(attempt);
    f := CheckJpaEntity(checker.inspector, path, disk);
  }
}
