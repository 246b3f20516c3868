/**
 * The fixed mock issue store: projects, in declaration order, each owning an
 * ordered list of issues.
 */
module JiraStore {
  import opened Wrappers

  /**
   * One mock issue. The source nests the summary and the status name inside
   * field and status objects (`issue.fields.summary`,
   * `issue.fields.status.name`); they are set once at construction, so the
   * model flattens them into one immutable record.
   */
  datatype Issue = Issue(key: string, summary: string, status: string)

  /** A project key and the issues it owns, in order. */
  datatype Project = Project(key: string, issues: seq<Issue>)

  /**
   * A dictionary keeps insertion order, which the "available projects"
   * diagnostic shows; a sequence of projects keeps that order.
   */
  type Store = seq<Project>

  function Keys(db: Store): (r: seq<string>)
    ensures |r| == |db|
    ensures forall j :: 0 <= j < |db| ==> r[j] == db[j].key
  {
    seq(|db|, j requires 0 <= j < |db| => db[j].key)
  }

  /** The position of the first project from `i` on whose key is `key`, or `|db|` if none. */
  function IndexFrom(db: Store, key: string, i: nat): (r: nat)
    requires i <= |db|
    ensures i <= r <= |db|
    ensures r < |db| ==> db[r].key == key
    ensures forall k :: i <= k < r ==> db[k].key != key
    decreases |db| - i
  {
    if i == |db| then i
    else if db[i].key == key then i
    else IndexFrom(db, key, i + 1)
  }

  /** Dictionary subscription: the issues of the first project whose key is `key`. */
  function Lookup(db: Store, key: string): (r: Option<seq<Issue>>)
    ensures r.Some? <==> key in Keys(db)
    ensures r.Some? ==> exists j :: 0 <= j < |db| && db[j].key == key && r.value == db[j].issues
  {
    var j := IndexFrom(db, key, 0);
    if j < |db| then Some(db[j].issues) else None
  }

  /** The store that load_mock_jira_database returns on every call. */
  function MockDatabase(): Store {
    [ Project("PROJ", ProjIssues()), Project("WEB", WebIssues()), Project("DATA", DataIssues()) ]
  }

  function ProjIssues(): seq<Issue> {
    [ Issue("PROJ-1", "Fix login button bug on the main page", "To Do"),
      Issue("PROJ-2", "Implement new feature for user profiles", "In Progress"),
      Issue("PROJ-3", "Update documentation for the public API", "Done") ]
  }

  function WebIssues(): seq<Issue> {
    [ Issue("WEB-101", "Redesign the entire landing page", "In Progress"),
      Issue("WEB-102", "Fix mobile responsiveness issues", "Done") ]
  }

  function DataIssues(): seq<Issue> {
    [ Issue("DATA-42", "Create new sales performance dashboard", "In Review") ]
  }

  /** The store's keys are PROJ, WEB, DATA in that order, with no key repeated. */
  lemma MockKeys()
    ensures Keys(MockDatabase()) == ["PROJ", "WEB", "DATA"]
    ensures forall j, k :: 0 <= j < k < |MockDatabase()| ==> MockDatabase()[j].key != MockDatabase()[k].key
  {
  }

  /** Each project holds exactly the listed issues, in order. */
  lemma MockContents()
    ensures Lookup(MockDatabase(), "PROJ") == Some([
      Issue("PROJ-1", "Fix login button bug on the main page", "To Do"),
      Issue("PROJ-2", "Implement new feature for user profiles", "In Progress"),
      Issue("PROJ-3", "Update documentation for the public API", "Done")])
    ensures Lookup(MockDatabase(), "WEB") == Some([
      Issue("WEB-101", "Redesign the entire landing page", "In Progress"),
      Issue("WEB-102", "Fix mobile responsiveness issues", "Done")])
    ensures Lookup(MockDatabase(), "DATA") == Some([
      Issue("DATA-42", "Create new sales performance dashboard", "In Review")])
  {
  }

  /** Every issue key begins with its project's key followed by a dash. */
  lemma MockIssueKeysPrefixed()
    ensures forall j, i :: 0 <= j < |MockDatabase()| && 0 <= i < |MockDatabase()[j].issues| ==>
              var p := MockDatabase()[j];
              |p.key| + 1 <= |p.issues[i].key| && p.issues[i].key[..|p.key| + 1] == p.key + "-"
  {
  }

  /** No key, summary or status of `x` contains a line break. */
  predicate NoLineBreak(x: Issue) {
    '\n' !in x.key && '\n' !in x.summary && '\n' !in x.status
  }

  lemma LiteralHasNoLineBreak(key: string, summary: string, status: string)
    requires '\n' !in key && '\n' !in summary && '\n' !in status
    ensures NoLineBreak(Issue(key, summary, status))
  {
  }

  /** No issue of `issues` has a line break in any of its fields. */
  predicate AllWithoutLineBreaks(issues: seq<Issue>) {
    forall i :: 0 <= i < |issues| ==> NoLineBreak(issues[i])
  }

  // One issue per lemma: the verifier checks a long string literal character by character.
  lemma Proj1HasNoLineBreak()
    ensures NoLineBreak(Issue("PROJ-1", "Fix login button bug on the main page", "To Do"))
  {
    LiteralHasNoLineBreak("PROJ-1", "Fix login button bug on the main page", "To Do");
  }

  lemma Proj2HasNoLineBreak()
    ensures NoLineBreak(Issue("PROJ-2", "Implement new feature for user profiles", "In Progress"))
  {
    LiteralHasNoLineBreak("PROJ-2", "Implement new feature for user profiles", "In Progress");
  }

  lemma Proj3HasNoLineBreak()
    ensures NoLineBreak(Issue("PROJ-3", "Update documentation for the public API", "Done"))
  {
    LiteralHasNoLineBreak("PROJ-3", "Update documentation for the public API", "Done");
  }

  lemma Web101HasNoLineBreak()
    ensures NoLineBreak(Issue("WEB-101", "Redesign the entire landing page", "In Progress"))
  {
    LiteralHasNoLineBreak("WEB-101", "Redesign the entire landing page", "In Progress");
  }

  lemma Web102HasNoLineBreak()
    ensures NoLineBreak(Issue("WEB-102", "Fix mobile responsiveness issues", "Done"))
  {
    LiteralHasNoLineBreak("WEB-102", "Fix mobile responsiveness issues", "Done");
  }

  lemma Data42HasNoLineBreak()
    ensures NoLineBreak(Issue("DATA-42", "Create new sales performance dashboard", "In Review"))
  {
    LiteralHasNoLineBreak("DATA-42", "Create new sales performance dashboard", "In Review");
  }

  /** No key, summary or status in the store contains a line break. */
  lemma MockHasNoLineBreaks()
    ensures forall j :: 0 <= j < |MockDatabase()| ==> AllWithoutLineBreaks(MockDatabase()[j].issues)
  {
    Proj1HasNoLineBreak();
    Proj2HasNoLineBreak();
    Proj3HasNoLineBreak();
    assert AllWithoutLineBreaks(ProjIssues());
    Web101HasNoLineBreak();
    Web102HasNoLineBreak();
    assert AllWithoutLineBreaks(WebIssues());
    Data42HasNoLineBreak();
    assert AllWithoutLineBreaks(DataIssues());
  }
}
