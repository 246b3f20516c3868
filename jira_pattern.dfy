/**
 * The two clause patterns of the mock JQL resolver, matched with Python `re`
 * semantics under IGNORECASE, restricted to ASCII:
 *   project  `project\s*=\s*['"]?(\w+)['"]?`
 *   status   `status\s*=\s*['"]([^'"]+)['"]`
 */
module JiraPattern {
  import opened Wrappers
  import opened Text

  datatype Clause = ProjectClause | StatusClause

  /** The literal each pattern opens with, compared after ASCII lower-casing. */
  function Keyword(c: Clause): string {
    match c
    case ProjectClause => "project"
    case StatusClause => "status"
  }

  /** The span of capture group 1 of a match, `q[start..end]`. */
  datatype Span = Span(start: nat, end: nat)

  /** The character runs the patterns consume greedily: `\s*`, `\w+` and `[^'"]+`. */
  datatype CharRun = Spaces | Word | NonQuote

  predicate InRun(k: CharRun, c: char) {
    match k
    case Spaces => IsSpace(c)
    case Word => IsWordChar(c)
    case NonQuote => !IsQuote(c)
  }

  /** The end of the longest run of `k` characters that starts at `j`. */
  function RunEnd(k: CharRun, q: string, j: nat): (r: nat)
    requires j <= |q|
    ensures j <= r <= |q|
    decreases |q| - j
  {
    if j < |q| && InRun(k, q[j]) then RunEnd(k, q, j + 1) else j
  }

  /** `w` occurs at `i` in `q` up to ASCII case. */
  predicate KeywordAt(q: string, i: nat, w: string)
    decreases |w|
  {
    i + |w| <= |q| && (|w| == 0 || (LowerChar(q[i]) == w[0] && KeywordAt(q, i + 1, w[1..])))
  }

  /**
   * The match of clause `c` anchored at position `i`, as a backtracking
   * engine finds it. Each greedy run is followed by a character it cannot
   * absorb or by an optional tail, so giving characters back never helps;
   * the only choice point, the optional opening quote of the project
   * clause, cannot succeed untaken when the quote is there, since a quote
   * is not a word character.
   */
  function MatchAt(c: Clause, q: string, i: nat): (r: Option<Span>)
    requires i <= |q|
    ensures r.Some? ==> i + |Keyword(c)| < r.value.start < r.value.end <= |q|
  {
    var w := Keyword(c);
    if KeywordAt(q, i, w) then MatchRest(c, q, i + |w|) else None
  }

  /** The rest of the anchored match once the keyword ends at `k`: blanks, `=`, blanks, group 1. */
  function MatchRest(c: Clause, q: string, k: nat): (r: Option<Span>)
    requires k <= |q|
    ensures r.Some? ==> k < r.value.start < r.value.end <= |q|
  {
    var u := RunEnd(Spaces, q, k);
    if u == |q| || q[u] != '=' then None
    else ReadGroup(c, q, RunEnd(Spaces, q, u + 1))
  }

  /** Group 1 of clause `c`, read once the blanks after `=` end at `v`. */
  function ReadGroup(c: Clause, q: string, v: nat): (r: Option<Span>)
    requires v <= |q|
    ensures r.Some? ==> v < r.value.start < r.value.end <= |q| || v == r.value.start < r.value.end <= |q|
  {
    match c
    case ProjectClause =>
      var a := if v < |q| && IsQuote(q[v]) then v + 1 else v;
      var e := RunEnd(Word, q, a);
      if a < e then Some(Span(a, e)) else None
    case StatusClause =>
      if v < |q| && IsQuote(q[v]) then
        var e := RunEnd(NonQuote, q, v + 1);
        if v + 1 < e < |q| then Some(Span(v + 1, e)) else None
      else None
  }

  /** A successful search: the position the match starts at and the span of its group 1. */
  datatype Found = Found(at: nat, group: Span)

  /**
   * The first-occurrence scan behind `re.search`: try the anchored matcher
   * `m` at positions `i`, `i + 1`, ..., `n` and stop at the first success.
   */
  function FirstFrom(m: nat -> Option<Span>, n: nat, i: nat): (r: Option<Found>)
    requires i <= n
    ensures r.Some? ==> i <= r.value.at <= n && m(r.value.at) == Some(r.value.group)
    ensures r.Some? ==> forall k :: i <= k < r.value.at ==> m(k).None?
    ensures r.None? ==> forall j :: i <= j <= n ==> m(j).None?
    decreases n - i
  {
    if m(i).Some? then Some(Found(i, m(i).value))
    else if i == n then None
    else FirstFrom(m, n, i + 1)
  }

  /** Clause `c`'s matcher anchored at each position of `q`. */
  function Matcher(c: Clause, q: string): nat -> Option<Span> {
    (j: nat) => if j <= |q| then MatchAt(c, q, j) else None
  }

  /** `re.search(pattern of c, q)`. */
  function Search(c: Clause, q: string): (r: Option<Found>)
    ensures r.Some? ==> r.value.at <= |q| && MatchAt(c, q, r.value.at) == Some(r.value.group)
    ensures r.Some? ==> r.value.group.start < r.value.group.end <= |q|
    ensures r.Some? ==> forall k :: 0 <= k < r.value.at ==> MatchAt(c, q, k).None?
    ensures r.None? ==> forall j :: 0 <= j <= |q| ==> MatchAt(c, q, j).None?
  {
    var r := FirstFrom(Matcher(c, q), |q|, 0);
    assert forall j :: 0 <= j <= |q| ==> Matcher(c, q)(j) == MatchAt(c, q, j);
    r
  }

}
