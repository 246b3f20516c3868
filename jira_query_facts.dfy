/** What the resolver promises about its diagnostics, its filter and its rendering. */
module JiraQueryFacts {
  import opened Wrappers
  import opened Text
  import opened JiraStore
  import opened JiraPattern
  import opened JiraPatternFacts
  import opened JiraQuery

  /** The key the resolver looks up is non-empty and already upper case. */
  lemma ProjectKeyIsUpper(q: string)
    ensures ProjectKey(q).Some? ==> |ProjectKey(q).value| > 0 && UpperStr(ProjectKey(q).value) == ProjectKey(q).value
  {
    match Search(ProjectClause, q)
    case None =>
    case Some(f) =>
      UpperStrIdempotent(q[f.group.start..f.group.end]);
  }

  /** The filter depends on the wanted status only up to ASCII case. */
  lemma {:induction false} FilterIgnoresCaseOfWanted(issues: seq<Issue>, w1: string, w2: string)
    requires LowerStr(w1) == LowerStr(w2)
    ensures FilterByStatus(issues, w1) == FilterByStatus(issues, w2)
    decreases |issues|
  {
    if issues != [] {
      FilterIgnoresCaseOfWanted(issues[1..], w1, w2);
    }
  }

  /** Every issue the query keeps is an issue of the project. */
  lemma SelectKeepsOwnIssues(issues: seq<Issue>, status: Option<string>, x: Issue)
    requires x in Select(issues, status)
    ensures x in issues
  {
  }

  /** The looked-up key depends on the query only up to ASCII case. */
  lemma ProjectKeyIgnoresCase(q1: string, q2: string)
    requires LowerStr(q1) == LowerStr(q2)
    ensures ProjectKey(q1) == ProjectKey(q2)
  {
    SearchIgnoresCase(ProjectClause, q1, q2);
    match Search(ProjectClause, q1)
    case None =>
    case Some(f) =>
      LowerSlice(q1, q2, f.group.start, f.group.end);
      UpperStrOfSameLower(q1[f.group.start..f.group.end], q2[f.group.start..f.group.end]);
  }

  /** The issues kept depend on the query only up to ASCII case. */
  lemma SelectIgnoresCase(q1: string, q2: string, issues: seq<Issue>)
    requires LowerStr(q1) == LowerStr(q2)
    ensures Select(issues, StatusText(q1)) == Select(issues, StatusText(q2))
  {
    SearchIgnoresCase(StatusClause, q1, q2);
    match Search(StatusClause, q1)
    case None =>
    case Some(g) =>
      LowerSlice(q1, q2, g.group.start, g.group.end);
      FilterIgnoresCaseOfWanted(issues, q1[g.group.start..g.group.end], q2[g.group.start..g.group.end]);
  }

  /**
   * The whole resolver sees the query only up to ASCII case: the keywords,
   * the key and the status text are all compared or normalised case-blind.
   */
  lemma ResolveIgnoresCase(db: Store, q1: string, q2: string)
    requires LowerStr(q1) == LowerStr(q2)
    ensures ResolveIn(db, q1) == ResolveIn(db, q2)
  {
    ProjectKeyIgnoresCase(q1, q2);
    match ProjectKey(q1)
    case None =>
    case Some(key) =>
      match Lookup(db, key)
      case None =>
      case Some(issues) =>
        SelectIgnoresCase(q1, q2, issues);
  }

  /** A rendered issue line opens with "- " and closes with ")". */
  lemma IssueLineShape(x: Issue)
    ensures |IssueLine(x)| >= 2 && IssueLine(x)[0] == '-' && IssueLine(x)[|IssueLine(x)| - 1] == ')'
  {
  }

  /** A non-empty listing opens with the "- " of its first line. */
  lemma ListingStartsWithDash(kept: seq<Issue>)
    requires kept != []
    ensures |Join(Lines(kept), "\n")| > 0 && Join(Lines(kept), "\n")[0] == '-'
  {
    JoinStartsWithFirst(Lines(kept), "\n");
    IssueLineShape(kept[0]);
    assert Join(Lines(kept), "\n")[0] == Join(Lines(kept), "\n")[..|IssueLine(kept[0])|][0];
  }

  /** The four kinds of outcome of the resolver are told apart by their opening characters. */
  lemma OutcomesDiffer(key: string, available: seq<string>, kept: seq<Issue>)
    requires kept != []
    ensures MissingProjectMessage != NotFoundMessage(key, available)
    ensures MissingProjectMessage != NoIssuesMessage && NotFoundMessage(key, available) != NoIssuesMessage
    ensures Join(Lines(kept), "\n") !in {MissingProjectMessage, NotFoundMessage(key, available), NoIssuesMessage}
  {
    assert MissingProjectMessage[5] == 's' && NotFoundMessage(key, available)[5] == 'p';
    assert MissingProjectMessage[0] == 'M' && NotFoundMessage(key, available)[0] == 'M' && NoIssuesMessage[0] == 'N';
    ListingStartsWithDash(kept);
  }

  /**
   * The "requires a project clause" diagnostic comes back exactly when the
   * project pattern matches nowhere in the query.
   */
  lemma ResolveMissingProject(db: Store, q: string)
    ensures ResolveIn(db, q) == MissingProjectMessage <==>
            forall j, s :: 0 <= j <= |q| ==> !PatternAt(ProjectClause, q, j, s)
  {
    SearchIsLeftmostMatch(ProjectClause, q);
    match ProjectKey(q)
    case None =>
    case Some(key) =>
      match Lookup(db, key)
      case None =>
        OutcomesDiffer(key, Keys(db), [Issue("", "", "")]);
      case Some(issues) =>
        var kept := Select(issues, StatusText(q));
        OutcomesDiffer(key, Keys(db), if kept == [] then [Issue("", "", "")] else kept);
  }

  /**
   * The "no issues" diagnostic comes back exactly when the key names a
   * project and the filter keeps none of its issues.
   */
  lemma ResolveNoIssues(db: Store, q: string)
    ensures ResolveIn(db, q) == NoIssuesMessage <==>
            ProjectKey(q).Some? && Lookup(db, ProjectKey(q).value).Some? &&
            Select(Lookup(db, ProjectKey(q).value).value, StatusText(q)) == []
  {
    match ProjectKey(q)
    case None =>
      OutcomesDiffer("", [], [Issue("", "", "")]);
    case Some(key) =>
      match Lookup(db, key)
      case None =>
        OutcomesDiffer(key, Keys(db), [Issue("", "", "")]);
      case Some(issues) =>
        var kept := Select(issues, StatusText(q));
        if kept != [] {
          OutcomesDiffer(key, Keys(db), kept);
        }
  }

  /** An unknown key is named back, followed by every key of the store in store order. */
  lemma ResolveUnknownProjectIn(db: Store, q: string)
    requires ProjectKey(q).Some? && ProjectKey(q).value !in Keys(db)
    ensures ResolveIn(db, q) == NotFoundMessage(ProjectKey(q).value, Keys(db))
  {
  }

  /** The mock store's keys, as the "not found" diagnostic lists them. */
  lemma AvailableProjectsText()
    ensures Join(Keys(MockDatabase()), ", ") == "PROJ, WEB, DATA"
  {
    MockKeys();
    assert Join(["PROJ", "WEB", "DATA"], ", ") == "PROJ" + ", " + ("WEB" + ", " + "DATA");
  }

  /** Over the mock store, an unknown key K gives the message listing PROJ, WEB, DATA. */
  lemma ResolveUnknownProject(q: string, key: string)
    requires ProjectKey(q) == Some(key) && key != "PROJ" && key != "WEB" && key != "DATA"
    ensures Resolve(q) == "Mock project '" + key + "' not found. Available projects are: " + "PROJ, WEB, DATA"
  {
    MockKeys();
    AvailableProjectsText();
    assert key !in Keys(MockDatabase());
    ResolveUnknownProjectIn(MockDatabase(), q);
  }

  /** No rendered line of issues without line breaks contains one. */
  lemma LinesWithoutLineBreaks(kept: seq<Issue>)
    requires AllWithoutLineBreaks(kept)
    ensures forall k :: 0 <= k < |Lines(kept)| ==> '\n' !in Lines(kept)[k]
  {
    forall k | 0 <= k < |Lines(kept)|
      ensures '\n' !in Lines(kept)[k]
    {
      assert NoLineBreak(kept[k]);
    }
  }

  /** The issues the query keeps inherit the absence of line breaks. */
  lemma SelectWithoutLineBreaks(issues: seq<Issue>, status: Option<string>)
    requires AllWithoutLineBreaks(issues)
    ensures AllWithoutLineBreaks(Select(issues, status))
  {
    var kept := Select(issues, status);
    forall i | 0 <= i < |kept|
      ensures NoLineBreak(kept[i])
    {
      SelectKeepsOwnIssues(issues, status, kept[i]);
    }
  }

  /** Splitting a listing on "\n" gives back its lines, and it ends with the last line's ")". */
  lemma ListingSplits(kept: seq<Issue>)
    requires AllWithoutLineBreaks(kept) && kept != []
    ensures Split(Join(Lines(kept), "\n"), '\n') == Lines(kept)
    ensures |Join(Lines(kept), "\n")| > 0 && Join(Lines(kept), "\n")[|Join(Lines(kept), "\n")| - 1] == ')'
  {
    var out := Join(Lines(kept), "\n");
    LinesWithoutLineBreaks(kept);
    SplitJoin(Lines(kept), '\n');
    JoinEndsWithLast(Lines(kept), "\n");
    var last := IssueLine(kept[|kept| - 1]);
    IssueLineShape(kept[|kept| - 1]);
    assert out[|out| - |last|..][|last| - 1] == out[|out| - 1];
  }

  /**
   * A non-empty result is the kept issues' lines joined by line breaks:
   * splitting it on "\n" gives back one line per kept issue, in order, and
   * the text ends with the last line's ")", not with a line break.
   */
  lemma ResolveListingIn(db: Store, q: string, issues: seq<Issue>, kept: seq<Issue>)
    requires ProjectKey(q).Some? && Lookup(db, ProjectKey(q).value) == Some(issues)
    requires AllWithoutLineBreaks(issues)
    requires kept == Select(issues, StatusText(q)) && kept != []
    ensures var out := ResolveIn(db, q);
            Split(out, '\n') == Lines(kept) && |out| > 0 && out[|out| - 1] == ')'
  {
    SelectWithoutLineBreaks(issues, StatusText(q));
    ListingSplits(kept);
  }

  /** Over the mock store, a non-empty result lists the kept issues one line each. */
  lemma ResolveListing(q: string, issues: seq<Issue>, kept: seq<Issue>)
    requires ProjectKey(q).Some? && Lookup(MockDatabase(), ProjectKey(q).value) == Some(issues)
    requires kept == Select(issues, StatusText(q)) && kept != []
    ensures Split(Resolve(q), '\n') == Lines(kept)
    ensures |Split(Resolve(q), '\n')| == |kept|
    ensures |Resolve(q)| > 0 && Resolve(q)[|Resolve(q)| - 1] == ')'
  {
    MockHasNoLineBreaks();
    ResolveListingIn(MockDatabase(), q, issues, kept);
  }

  /** Without a status clause, every issue of the project is listed, in store order. */
  lemma ResolveListsAll(q: string, issues: seq<Issue>)
    requires ProjectKey(q).Some? && Lookup(MockDatabase(), ProjectKey(q).value) == Some(issues)
    requires StatusText(q).None? && issues != []
    ensures Split(Resolve(q), '\n') == Lines(issues)
  {
    ResolveListing(q, issues, issues);
  }
}
