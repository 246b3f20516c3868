/**
 * The mock JQL resolver behind the `search_jira` tool: the two clause
 * searches, a store lookup, an optional status filter and a line-per-issue
 * rendering.
 */
module JiraQuery {
  import opened Wrappers
  import opened Text
  import opened JiraStore
  import opened JiraPattern

  // The fixed diagnostics, written in pieces: the verifier reads a long
  // literal character by character from its far end.
  const MissingProjectMessage: string :=
    "Mock search requires a " + "'project = <KEY>' clause in the JQL query. " + "For example: 'project = PROJ'"

  const NoIssuesMessage: string := "No issues found for the " + "given query in the mock database."

  function NotFoundMessage(key: string, available: seq<string>): string {
    "Mock project '" + key + "' not found. Available projects are: " + Join(available, ", ")
  }

  /** The project key of the query: group 1 of the first project clause, upper-cased. */
  function ProjectKey(jql: string): Option<string> {
    match Search(ProjectClause, jql)
    case None => None
    case Some(f) => Some(UpperStr(jql[f.group.start..f.group.end]))
  }

  /** The quoted text of the first status clause, as written. */
  function StatusText(jql: string): Option<string> {
    match Search(StatusClause, jql)
    case None => None
    case Some(f) => Some(jql[f.group.start..f.group.end])
  }

  /** Statuses compare equal after lower-casing both sides, as whole strings. */
  predicate StatusMatches(x: Issue, wanted: string) {
    LowerStr(x.status) == LowerStr(wanted)
  }

  /** `xs` can be obtained from `ys` by deleting elements. */
  predicate IsSubsequence<T(==)>(xs: seq<T>, ys: seq<T>)
    decreases |ys|
  {
    xs == [] ||
    (|ys| > 0 && ((xs[0] == ys[0] && IsSubsequence(xs[1..], ys[1..])) || IsSubsequence(xs, ys[1..])))
  }

  /**
   * The list comprehension that keeps the issues whose status matches
   * `wanted`: in their order, and every copy of each.
   */
  function FilterByStatus(issues: seq<Issue>, wanted: string): (r: seq<Issue>)
    ensures IsSubsequence(r, issues)
    ensures forall x :: x in r <==> x in issues && StatusMatches(x, wanted)
    ensures forall x :: multiset(r)[x] == if StatusMatches(x, wanted) then multiset(issues)[x] else 0
    decreases |issues|
  {
    if issues == [] then []
    else
      var rest := FilterByStatus(issues[1..], wanted);
      assert issues == [issues[0]] + issues[1..];
      assert forall x :: x in issues <==> x == issues[0] || x in issues[1..];
      if StatusMatches(issues[0], wanted) then [issues[0]] + rest else rest
  }

  /** The issues the query keeps: all of them, or those of the given status. */
  function Select(issues: seq<Issue>, status: Option<string>): seq<Issue> {
    match status
    case None => issues
    case Some(wanted) => FilterByStatus(issues, wanted)
  }

  function IssueLine(x: Issue): string {
    "- " + x.key + ": " + x.summary + " (Status: " + x.status + ")"
  }

  function Lines(issues: seq<Issue>): seq<string> {
    seq(|issues|, j requires 0 <= j < |issues| => IssueLine(issues[j]))
  }

  /** The text the resolver returns for `jql` when the store is `db`. */
  function ResolveIn(db: Store, jql: string): string {
    match ProjectKey(jql)
    case None => MissingProjectMessage
    case Some(key) =>
      match Lookup(db, key)
      case None => NotFoundMessage(key, Keys(db))
      case Some(issues) =>
        var kept := Select(issues, StatusText(jql));
        if kept == [] then NoIssuesMessage else Join(Lines(kept), "\n")
  }

  /** The text `search_jira` returns for `jql`: the resolver over the mock store. */
  function Resolve(jql: string): string {
    ResolveIn(MockDatabase(), jql)
  }

  /** `search_jira`, step by step, accumulating the result lines in a list. */
  method SearchJira(jqlQuery: string) returns (out: string)
    ensures out == Resolve(jqlQuery)
  {
    var projectMatch := Search(ProjectClause, jqlQuery);
    var statusMatch := Search(StatusClause, jqlQuery);
    if projectMatch.None? {
      return MissingProjectMessage;
    }
    var projectKey := UpperStr(jqlQuery[projectMatch.value.group.start..projectMatch.value.group.end]);
    var mockDatabase := MockDatabase();
    var found := Lookup(mockDatabase, projectKey);
    if found.None? {
      return NotFoundMessage(projectKey, Keys(mockDatabase));
    }
    var issues := found.value;
    if statusMatch.Some? {
      var statusToFind := jqlQuery[statusMatch.value.group.start..statusMatch.value.group.end];
      issues := FilterByStatus(issues, statusToFind);
    }
    if issues == [] {
      return NoIssuesMessage;
    }
    out := FormatIssues(issues);
  }

  /** The rendering step of `search_jira`: one line per issue, joined by line breaks. */
  method FormatIssues(issues: seq<Issue>) returns (out: string)
    ensures out == Join(Lines(issues), "\n")
  {
    var results: seq<string> := [];
    for k := 0 to |issues|
      invariant |results| == k
      invariant forall j :: 0 <= j < k ==> results[j] == IssueLine(issues[j])
    {
      results := results + [IssueLine(issues[k])];
    }
    assert results == Lines(issues);
    out := Join(results, "\n");
  }
}
