/**
 * The resolver on example queries. The verifier reads a string literal one
 * character at a time, so each fact about a query's characters is stated on
 * its own and the facts are then assembled into the layout of a clause.
 */
module JiraExamples {
  import opened Wrappers
  import opened Text
  import opened JiraStore
  import opened JiraPattern
  import opened JiraPatternFacts
  import opened JiraQuery
  import opened JiraQueryFacts

  /**
   * A project clause at `i` with an unquoted key: the keyword, blanks ending
   * at `u` before the `=`, blanks ending at `v`, and the key running to `e`.
   */
  predicate ProjectLayout(q: string, i: nat, u: nat, v: nat, e: nat) {
    i + 7 <= u < |q| && KeywordAt(q, i, "project") && RunEnd(Spaces, q, i + 7) == u && q[u] == '=' &&
    u < v < |q| && RunEnd(Spaces, q, u + 1) == v && !IsQuote(q[v]) &&
    v < e <= |q| && RunEnd(Word, q, v) == e
  }

  /**
   * A status clause at `i`: the keyword, blanks ending at `u` before the
   * `=`, blanks ending at `v` before the opening quote, and the quoted text
   * running to `e`.
   */
  predicate StatusLayout(q: string, i: nat, u: nat, v: nat, e: nat) {
    i + 6 <= u < |q| && KeywordAt(q, i, "status") && RunEnd(Spaces, q, i + 6) == u && q[u] == '=' &&
    u < v < |q| && RunEnd(Spaces, q, u + 1) == v && IsQuote(q[v]) &&
    v + 1 < e < |q| && RunEnd(NonQuote, q, v + 1) == e
  }

  lemma ProjectMatchAt(q: string, i: nat, u: nat, v: nat, e: nat)
    requires ProjectLayout(q, i, u, v, e)
    ensures MatchAt(ProjectClause, q, i) == Some(Span(v, e))
  {
    assert ReadGroup(ProjectClause, q, v) == Some(Span(v, e));
    assert MatchRest(ProjectClause, q, i + 7) == Some(Span(v, e));
  }

  lemma StatusMatchAt(q: string, i: nat, u: nat, v: nat, e: nat)
    requires StatusLayout(q, i, u, v, e)
    ensures MatchAt(StatusClause, q, i) == Some(Span(v + 1, e))
  {
    assert ReadGroup(StatusClause, q, v) == Some(Span(v + 1, e));
    assert MatchRest(StatusClause, q, i + 6) == Some(Span(v + 1, e));
  }

  /** A project clause opening the query gives its upper-cased key. */
  lemma ProjectKeyAt(q: string, u: nat, v: nat, e: nat)
    requires ProjectLayout(q, 0, u, v, e)
    ensures ProjectKey(q) == Some(UpperStr(q[v..e]))
  {
    ProjectMatchAt(q, 0, u, v, e);
    SearchFindsFirst(ProjectClause, q, 0, Span(v, e));
  }

  /** The first status clause of the query gives its quoted text. */
  lemma StatusTextAt(q: string, i: nat, u: nat, v: nat, e: nat)
    requires StatusLayout(q, i, u, v, e)
    requires forall j :: 0 <= j < i ==> MatchAt(StatusClause, q, j).None?
    ensures StatusText(q) == Some(q[v + 1..e])
  {
    StatusMatchAt(q, i, u, v, e);
    SearchFindsFirst(StatusClause, q, i, Span(v + 1, e));
  }

  // "project = PROJ"

  lemma ProjProjLayout()
    ensures ProjectLayout("project = PROJ", 0, 8, 10, 14)
  {
  }

  lemma ProjProjKey()
    ensures ProjectKey("project = PROJ") == Some("PROJ")
  {
    var q := "project = PROJ";
    ProjProjLayout();
    ProjectKeyAt(q, 8, 10, 14);
    assert q[10..14] == [q[10], q[11], q[12], q[13]];
    assert UpperStr(q[10..14]) == [UpperChar(q[10]), UpperChar(q[11]), UpperChar(q[12]), UpperChar(q[13])];
  }

  lemma ProjProjNoStatus()
    ensures StatusText("project = PROJ") == None
  {
    SearchFailsWithoutInitial(StatusClause, "project = PROJ");
  }

  /** `project = PROJ` lists PROJ-1, PROJ-2 and PROJ-3, one line each, in store order. */
  lemma ExampleProject()
    ensures Resolve("project = PROJ") == Join(Lines(ProjIssues()), "\n")
  {
    ProjProjKey();
    ProjProjNoStatus();
    assert Lookup(MockDatabase(), "PROJ") == Some(ProjIssues());
  }

  // "project = WEB and status = 'Done'"

  lemma WebDonePieces()
    ensures "project = WEB and status = 'Done'" == "project = WEB" + " and status = 'Done'"
    ensures "project = WEB and status = 'Done'" == "project = WEB and " + "status = 'Done'"
  {
  }

  lemma WebDoneKeyword()
    ensures KeywordAt("project = WEB and status = 'Done'", 0, "project")
  {
    WebDonePieces();
    assert KeywordAt("project = WEB" + " and status = 'Done'", 0, "project");
  }

  lemma WebDoneProjectBlanks()
    ensures RunEnd(Spaces, "project = WEB and status = 'Done'", 7) == 8
    ensures RunEnd(Spaces, "project = WEB and status = 'Done'", 9) == 10
  {
  }

  lemma WebDoneProjectChars()
    ensures "project = WEB and status = 'Done'"[8] == '=' && !IsQuote("project = WEB and status = 'Done'"[10])
  {
  }

  lemma WebDoneKeyRun()
    ensures RunEnd(Word, "project = WEB and status = 'Done'", 10) == 13
  {
  }

  lemma WebDoneStatusKeyword()
    ensures KeywordAt("project = WEB and status = 'Done'", 18, "status")
  {
  }

  lemma WebDoneStatusBlanks()
    ensures RunEnd(Spaces, "project = WEB and status = 'Done'", 24) == 25
    ensures RunEnd(Spaces, "project = WEB and status = 'Done'", 26) == 27
  {
  }

  lemma WebDoneStatusChars()
    ensures "project = WEB and status = 'Done'"[25] == '=' && IsQuote("project = WEB and status = 'Done'"[27])
  {
  }

  lemma WebDoneTextRun()
    ensures RunEnd(NonQuote, "project = WEB and status = 'Done'", 28) == 32
  {
  }

  lemma WebDoneSlices()
    ensures UpperStr("project = WEB and status = 'Done'"[10..13]) == "WEB"
    ensures "project = WEB and status = 'Done'"[28..32] == "Done"
  {
    var q := "project = WEB and status = 'Done'";
    assert q[10..13] == [q[10], q[11], q[12]];
    assert UpperStr(q[10..13]) == [UpperChar(q[10]), UpperChar(q[11]), UpperChar(q[12])];
    assert q[28..32] == [q[28], q[29], q[30], q[31]];
  }

  lemma WebDoneNoStatusBefore()
    ensures forall j :: 0 <= j < 18 ==> MatchAt(StatusClause, "project = WEB and status = 'Done'", j).None?
  {
    WebDonePieces();
    NoMatchWithoutInitial(StatusClause, "project = WEB and status = 'Done'", "project = WEB and ", "status = 'Done'");
  }

  lemma WebDoneKey()
    ensures ProjectKey("project = WEB and status = 'Done'") == Some("WEB")
  {
    WebDoneKeyword();
    WebDoneProjectBlanks();
    WebDoneProjectChars();
    WebDoneKeyRun();
    ProjectKeyAt("project = WEB and status = 'Done'", 8, 10, 13);
    WebDoneSlices();
  }

  lemma WebDoneStatus()
    ensures StatusText("project = WEB and status = 'Done'") == Some("Done")
  {
    WebDoneStatusKeyword();
    WebDoneStatusBlanks();
    WebDoneStatusChars();
    WebDoneTextRun();
    WebDoneNoStatusBefore();
    StatusTextAt("project = WEB and status = 'Done'", 18, 25, 27, 32);
    WebDoneSlices();
  }

  lemma WebDoneFilter()
    ensures Lookup(MockDatabase(), "WEB") == Some(WebIssues())
    ensures FilterByStatus(WebIssues(), "Done") == [Issue("WEB-102", "Fix mobile responsiveness issues", "Done")]
  {
    assert |LowerStr("In Progress")| != |LowerStr("Done")|;
  }

  /** `project = WEB and status = 'Done'` gives exactly the line of WEB-102. */
  lemma ExampleProjectAndStatus()
    ensures Resolve("project = WEB and status = 'Done'") ==
            IssueLine(Issue("WEB-102", "Fix mobile responsiveness issues", "Done"))
  {
    WebDoneKey();
    WebDoneStatus();
    WebDoneFilter();
  }

  // "project = XYZ"

  lemma XyzLayout()
    ensures ProjectLayout("project = XYZ", 0, 8, 10, 13)
  {
  }

  lemma XyzKey()
    ensures ProjectKey("project = XYZ") == Some("XYZ")
  {
    var q := "project = XYZ";
    XyzLayout();
    ProjectKeyAt(q, 8, 10, 13);
    assert q[10..13] == [q[10], q[11], q[12]];
    assert UpperStr(q[10..13]) == [UpperChar(q[10]), UpperChar(q[11]), UpperChar(q[12])];
  }

  /** `project = XYZ` names the unknown key and lists the store's keys in order. */
  lemma ExampleUnknownProject()
    ensures Resolve("project = XYZ") ==
            "Mock project '" + "XYZ" + "' not found. Available projects are: " + "PROJ, WEB, DATA"
  {
    XyzKey();
    ResolveUnknownProject("project = XYZ", "XYZ");
  }

  // "status = 'Done'"

  lemma NoProjectInitial()
    ensures 'p' !in "status = 'Done'" && 'P' !in "status = 'Done'"
  {
  }

  /** A status clause alone draws the "requires a project clause" diagnostic. */
  lemma ExampleMissingProject()
    ensures Resolve("status = 'Done'") == MissingProjectMessage
  {
    NoProjectInitial();
    SearchFailsWithoutInitial(ProjectClause, "status = 'Done'");
  }

  // "project = DATA and status = 'Blocked'"

  lemma DataBlockedPieces()
    ensures "project = DATA and status = 'Blocked'" == "project = DATA" + " and status = 'Blocked'"
    ensures "project = DATA and status = 'Blocked'" == "project = DATA and " + "status = 'Blocked'"
  {
  }

  lemma DataBlockedKeyword()
    ensures KeywordAt("project = DATA and status = 'Blocked'", 0, "project")
  {
    DataBlockedPieces();
    assert KeywordAt("project = DATA" + " and status = 'Blocked'", 0, "project");
  }

  lemma DataBlockedProjectBlanks()
    ensures RunEnd(Spaces, "project = DATA and status = 'Blocked'", 7) == 8
    ensures RunEnd(Spaces, "project = DATA and status = 'Blocked'", 9) == 10
  {
  }

  lemma DataBlockedProjectChars()
    ensures "project = DATA and status = 'Blocked'"[8] == '=' && !IsQuote("project = DATA and status = 'Blocked'"[10])
  {
  }

  lemma DataBlockedKeyRun()
    ensures RunEnd(Word, "project = DATA and status = 'Blocked'", 10) == 14
  {
  }

  lemma DataBlockedStatusKeyword()
    ensures KeywordAt("project = DATA and status = 'Blocked'", 19, "status")
  {
  }

  lemma DataBlockedStatusBlanks()
    ensures RunEnd(Spaces, "project = DATA and status = 'Blocked'", 25) == 26
    ensures RunEnd(Spaces, "project = DATA and status = 'Blocked'", 27) == 28
  {
  }

  lemma DataBlockedStatusChars()
    ensures "project = DATA and status = 'Blocked'"[26] == '=' && IsQuote("project = DATA and status = 'Blocked'"[28])
  {
  }

  lemma DataBlockedTextRun()
    ensures RunEnd(NonQuote, "project = DATA and status = 'Blocked'", 29) == 36
  {
  }

  lemma DataBlockedKeySlice()
    ensures UpperStr("project = DATA and status = 'Blocked'"[10..14]) == "DATA"
  {
    var q := "project = DATA and status = 'Blocked'";
    assert q[10] == 'D' && q[11] == 'A' && q[12] == 'T' && q[13] == 'A';
    assert q[10..14] == [q[10], q[11], q[12], q[13]];
    assert UpperStr("DATA") == [UpperChar('D'), UpperChar('A'), UpperChar('T'), UpperChar('A')];
  }

  lemma DataBlockedTextSlice()
    ensures "project = DATA and status = 'Blocked'"[29..36] == "Blocked"
  {
    var q := "project = DATA and status = 'Blocked'";
    assert q[29..36] == [q[29], q[30], q[31], q[32], q[33], q[34], q[35]];
  }

  lemma DataBlockedNoStatusBefore()
    ensures forall j :: 0 <= j < 19 ==> MatchAt(StatusClause, "project = DATA and status = 'Blocked'", j).None?
  {
    DataBlockedPieces();
    NoMatchWithoutInitial(StatusClause, "project = DATA and status = 'Blocked'", "project = DATA and ", "status = 'Blocked'");
  }

  lemma DataBlockedKey()
    ensures ProjectKey("project = DATA and status = 'Blocked'") == Some("DATA")
  {
    DataBlockedKeyword();
    DataBlockedProjectBlanks();
    DataBlockedProjectChars();
    DataBlockedKeyRun();
    ProjectKeyAt("project = DATA and status = 'Blocked'", 8, 10, 14);
    DataBlockedKeySlice();
  }

  lemma DataBlockedStatus()
    ensures StatusText("project = DATA and status = 'Blocked'") == Some("Blocked")
  {
    DataBlockedStatusKeyword();
    DataBlockedStatusBlanks();
    DataBlockedStatusChars();
    DataBlockedTextRun();
    DataBlockedNoStatusBefore();
    StatusTextAt("project = DATA and status = 'Blocked'", 19, 26, 28, 36);
    DataBlockedTextSlice();
  }

  lemma DataBlockedFilter()
    ensures Lookup(MockDatabase(), "DATA") == Some(DataIssues())
    ensures FilterByStatus(DataIssues(), "Blocked") == []
  {
    assert |LowerStr("In Review")| != |LowerStr("Blocked")|;
  }

  /** `project = DATA and status = 'Blocked'` keeps no issue and says so. */
  lemma ExampleNoIssues()
    ensures Resolve("project = DATA and status = 'Blocked'") == NoIssuesMessage
  {
    DataBlockedKey();
    DataBlockedStatus();
    DataBlockedFilter();
  }

  // "PROJECT = proj"

  lemma LowerUpperQuery()
    ensures LowerStr("PROJECT = proj") == "project = proj"
  {
  }

  lemma LowerMixedQuery()
    ensures LowerStr("project = PROJ") == "project = proj"
  {
  }

  /** Keyword and key case do not matter: `PROJECT = proj` answers like `project = PROJ`. */
  lemma ExampleIgnoresCase()
    ensures Resolve("PROJECT = proj") == Resolve("project = PROJ")
  {
    LowerUpperQuery();
    LowerMixedQuery();
    ResolveIgnoresCase(MockDatabase(), "PROJECT = proj", "project = PROJ");
  }
}
