/** What the clause matchers and the search compute, stated against the patterns' meaning. */
module JiraPatternFacts {
  import opened Wrappers
  import opened Text
  import opened JiraPattern

  /**
   * What the pattern of `c` means, stated as a relation: the regex matches at
   * `i` with group 1 spanning `s` when the keyword, the two blank runs around
   * `=` and the group can be laid out this way, with the group's run maximal.
   */
  ghost predicate PatternAt(c: Clause, q: string, i: nat, s: Span) {
    KeywordAt(q, i, Keyword(c)) && LayoutFrom(c, q, i + |Keyword(c)|, s)
  }

  /** The rest of the pattern, after the keyword ends at `k`, can be laid out with group `s`. */
  ghost predicate LayoutFrom(c: Clause, q: string, k: nat, s: Span) {
    exists u, v :: Layout(c, q, k, u, v, s)
  }

  /** From `k`, where the keyword ends: blanks, `=` at `u`, blanks up to `v`, then the group `s`. */
  predicate Layout(c: Clause, q: string, k: nat, u: nat, v: nat, s: Span) {
    k <= u < v <= |q| && Blanks(q, k, u) && q[u] == '=' && Blanks(q, u + 1, v) &&
    GroupAt(c, q, v, s)
  }

  /** `q[a..b]` is all blanks. */
  predicate Blanks(q: string, a: nat, b: nat)
    requires b <= |q|
  {
    forall t :: a <= t < b ==> IsSpace(q[t])
  }

  /** Group 1 of clause `c` once the blanks after `=` end at `v`. */
  predicate GroupAt(c: Clause, q: string, v: nat, s: Span) {
    match c
    case ProjectClause =>
      (s.start == v || (s.start == v + 1 && v < |q| && IsQuote(q[v]))) &&
      s.start < s.end <= |q| &&
      (forall t :: s.start <= t < s.end ==> IsWordChar(q[t])) &&
      (s.end < |q| ==> !IsWordChar(q[s.end]))
    case StatusClause =>
      v < |q| && IsQuote(q[v]) && s.start == v + 1 && s.start < s.end < |q| &&
      (forall t :: s.start <= t < s.end ==> !IsQuote(q[t])) &&
      IsQuote(q[s.end])
  }

  /** Everything `RunEnd` passes over belongs to the run, and what stops it does not. */
  lemma {:induction false} RunEndStops(k: CharRun, q: string, j: nat)
    requires j <= |q|
    ensures forall t :: j <= t < RunEnd(k, q, j) ==> InRun(k, q[t])
    ensures RunEnd(k, q, j) < |q| ==> !InRun(k, q[RunEnd(k, q, j)])
    decreases |q| - j
  {
    if j < |q| && InRun(k, q[j]) {
      RunEndStops(k, q, j + 1);
    }
  }

  /** A run described by its contents and its stopping character is the longest run. */
  lemma RunEndIs(k: CharRun, q: string, j: nat, e: nat)
    requires j <= e <= |q|
    requires forall t :: j <= t < e ==> InRun(k, q[t])
    requires e < |q| ==> !InRun(k, q[e])
    ensures RunEnd(k, q, j) == e
  {
    RunEndStops(k, q, j);
  }

  /** The group the matcher reads is a group the pattern describes, and the only one. */
  lemma ReadGroupIsGroupAt(c: Clause, q: string, v: nat, s: Span)
    requires v <= |q|
    ensures ReadGroup(c, q, v) == Some(s) <==> GroupAt(c, q, v, s)
  {
    match c
    case ProjectClause =>
      var a := if v < |q| && IsQuote(q[v]) then v + 1 else v;
      RunEndStops(Word, q, a);
      if GroupAt(c, q, v, s) {
        RunEndIs(Word, q, s.start, s.end);
      }
    case StatusClause =>
      if v < |q| && IsQuote(q[v]) {
        RunEndStops(NonQuote, q, v + 1);
      }
      if GroupAt(c, q, v, s) {
        RunEndIs(NonQuote, q, v + 1, s.end);
      }
  }

  /** The blanks from `j` on end at a character that is not blank, or at the end. */
  lemma BlankRun(q: string, j: nat)
    requires j <= |q|
    ensures Blanks(q, j, RunEnd(Spaces, q, j))
    ensures RunEnd(Spaces, q, j) < |q| ==> !IsSpace(q[RunEnd(Spaces, q, j)])
  {
    RunEndStops(Spaces, q, j);
  }

  /** The group the matcher reads is a group the pattern describes. */
  lemma ReadGroupGivesGroupAt(c: Clause, q: string, v: nat, s: Span)
    requires v <= |q| && ReadGroup(c, q, v) == Some(s)
    ensures GroupAt(c, q, v, s)
  {
    ReadGroupIsGroupAt(c, q, v, s);
  }

  /** What the matcher reads after the keyword is a layout of the rest of the pattern. */
  lemma MatchRestSound(c: Clause, q: string, k: nat, s: Span)
    requires k <= |q| && MatchRest(c, q, k) == Some(s)
    ensures LayoutFrom(c, q, k, s)
  {
    var u := RunEnd(Spaces, q, k);
    BlankRun(q, k);
    var v := RunEnd(Spaces, q, u + 1);
    BlankRun(q, u + 1);
    ReadGroupGivesGroupAt(c, q, v, s);
    assert Layout(c, q, k, u, v, s);
  }

  /** The blanks before `=` end exactly at `=`. */
  lemma BlanksBeforeEquals(q: string, j: nat, u: nat)
    requires j <= u < |q| && q[u] == '=' && Blanks(q, j, u)
    ensures RunEnd(Spaces, q, j) == u
  {
    RunEndIs(Spaces, q, j, u);
  }

  /** The blanks after `=` end where the group's opening character is. */
  lemma BlanksBeforeGroup(c: Clause, q: string, j: nat, v: nat, s: Span)
    requires j <= v <= |q| && Blanks(q, j, v)
    requires GroupAt(c, q, v, s)
    ensures ReadGroup(c, q, RunEnd(Spaces, q, j)) == Some(s)
  {
    assert v == |q| || !IsSpace(q[v]);
    RunEndIs(Spaces, q, j, v);
    ReadGroupIsGroupAt(c, q, v, s);
  }

  /** A layout of the rest of the pattern is what the matcher reads after the keyword. */
  lemma LayoutIsMatchRest(c: Clause, q: string, k: nat, u: nat, v: nat, s: Span)
    requires Layout(c, q, k, u, v, s)
    ensures MatchRest(c, q, k) == Some(s)
  {
    BlanksBeforeEquals(q, k, u);
    BlanksBeforeGroup(c, q, u + 1, v, s);
  }

  /** After the keyword, the matcher finds exactly the group a layout describes. */
  lemma MatchRestIsLayout(c: Clause, q: string, k: nat, s: Span)
    requires k <= |q|
    ensures MatchRest(c, q, k) == Some(s) <==> LayoutFrom(c, q, k, s)
  {
    if MatchRest(c, q, k) == Some(s) {
      MatchRestSound(c, q, k, s);
    }
    if LayoutFrom(c, q, k, s) {
      var u, v :| Layout(c, q, k, u, v, s);
      LayoutIsMatchRest(c, q, k, u, v, s);
    }
  }

  /** The anchored matcher finds exactly the span the pattern describes, and no other. */
  lemma MatchAtIsPattern(c: Clause, q: string, i: nat, s: Span)
    requires i <= |q|
    ensures MatchAt(c, q, i) == Some(s) <==> PatternAt(c, q, i, s)
  {
    if KeywordAt(q, i, Keyword(c)) {
      MatchRestIsLayout(c, q, i + |Keyword(c)|, s);
    }
  }

  /** What the anchored matcher returns is a match of the pattern. */
  lemma MatchAtSound(c: Clause, q: string, i: nat)
    requires i <= |q|
    ensures MatchAt(c, q, i).Some? ==> PatternAt(c, q, i, MatchAt(c, q, i).value)
  {
    if MatchAt(c, q, i).Some? {
      MatchAtIsPattern(c, q, i, MatchAt(c, q, i).value);
    }
  }

  /** The search fails exactly when the pattern matches nowhere. */
  lemma SearchFailsIffNoMatch(c: Clause, q: string)
    ensures Search(c, q).None? <==> forall j, s :: 0 <= j <= |q| ==> !PatternAt(c, q, j, s)
  {
    if Search(c, q).None? {
      forall j, s | 0 <= j <= |q|
        ensures !PatternAt(c, q, j, s)
      {
        MatchAtIsPattern(c, q, j, s);
      }
    } else {
      MatchAtSound(c, q, Search(c, q).value.at);
    }
  }

  /** A successful search returns the leftmost match of the pattern, with its group. */
  lemma SearchFindsLeftmost(c: Clause, q: string)
    requires Search(c, q).Some?
    ensures var f := Search(c, q).value;
            f.at <= |q| && PatternAt(c, q, f.at, f.group) &&
            forall k, s :: 0 <= k < f.at ==> !PatternAt(c, q, k, s)
  {
    var f := Search(c, q).value;
    MatchAtSound(c, q, f.at);
    forall k, s | 0 <= k < f.at
      ensures !PatternAt(c, q, k, s)
    {
      MatchAtIsPattern(c, q, k, s);
    }
  }

  /**
   * The search succeeds exactly when the pattern matches somewhere, and then
   * returns the leftmost position at which it matches, with that match's group.
   */
  lemma SearchIsLeftmostMatch(c: Clause, q: string)
    ensures Search(c, q).None? <==> forall j, s :: 0 <= j <= |q| ==> !PatternAt(c, q, j, s)
    ensures Search(c, q).Some? ==>
              var f := Search(c, q).value;
              f.at <= |q| && PatternAt(c, q, f.at, f.group) &&
              forall k, s :: 0 <= k < f.at ==> !PatternAt(c, q, k, s)
  {
    SearchFailsIffNoMatch(c, q);
    if Search(c, q).Some? {
      SearchFindsLeftmost(c, q);
    }
  }

  /** Two queries that lower-case alike agree, up to case, at every position. */
  lemma SameFoldAt(q1: string, q2: string, j: nat)
    requires LowerStr(q1) == LowerStr(q2) && j < |q1|
    ensures |q1| == |q2| && LowerChar(q1[j]) == LowerChar(q2[j])
  {
    assert |q1| == |LowerStr(q1)|;
    assert LowerStr(q1)[j] == LowerStr(q2)[j];
  }

  /** Whether a character belongs to a run does not depend on its case. */
  lemma InRunIgnoresCase(k: CharRun, a: char, b: char)
    requires LowerChar(a) == LowerChar(b)
    ensures InRun(k, a) == InRun(k, b)
  {
    ClassesIgnoreCase(a);
    ClassesIgnoreCase(b);
  }

  lemma {:induction false} RunEndIgnoresCase(k: CharRun, q1: string, q2: string, j: nat)
    requires LowerStr(q1) == LowerStr(q2) && j <= |q1|
    ensures |q1| == |q2| && RunEnd(k, q1, j) == RunEnd(k, q2, j)
    decreases |q1| - j
  {
    assert |q1| == |LowerStr(q1)|;
    if j < |q1| {
      SameFoldAt(q1, q2, j);
      InRunIgnoresCase(k, q1[j], q2[j]);
      if InRun(k, q1[j]) {
        RunEndIgnoresCase(k, q1, q2, j + 1);
      }
    }
  }

  lemma {:induction false} KeywordAtIgnoresCase(q1: string, q2: string, i: nat, w: string)
    requires LowerStr(q1) == LowerStr(q2)
    ensures KeywordAt(q1, i, w) == KeywordAt(q2, i, w)
    decreases |w|
  {
    assert |q1| == |LowerStr(q1)|;
    if i + |w| <= |q1| && |w| > 0 {
      SameFoldAt(q1, q2, i);
      KeywordAtIgnoresCase(q1, q2, i + 1, w[1..]);
    }
  }

  lemma ReadGroupIgnoresCase(c: Clause, q1: string, q2: string, v: nat)
    requires LowerStr(q1) == LowerStr(q2) && v <= |q1|
    ensures |q1| == |q2| && ReadGroup(c, q1, v) == ReadGroup(c, q2, v)
  {
    assert |q1| == |LowerStr(q1)|;
    if v < |q1| {
      SameFoldAt(q1, q2, v);
      ClassesIgnoreCase(q1[v]);
      ClassesIgnoreCase(q2[v]);
    }
    match c
    case ProjectClause =>
      var a := if v < |q1| && IsQuote(q1[v]) then v + 1 else v;
      RunEndIgnoresCase(Word, q1, q2, a);
    case StatusClause =>
      if v < |q1| && IsQuote(q1[v]) {
        RunEndIgnoresCase(NonQuote, q1, q2, v + 1);
      }
  }

  lemma MatchRestIgnoresCase(c: Clause, q1: string, q2: string, k: nat)
    requires LowerStr(q1) == LowerStr(q2) && k <= |q1|
    ensures |q1| == |q2| && MatchRest(c, q1, k) == MatchRest(c, q2, k)
  {
    RunEndIgnoresCase(Spaces, q1, q2, k);
    var u := RunEnd(Spaces, q1, k);
    if u < |q1| {
      SameFoldAt(q1, q2, u);
      ClassesIgnoreCase(q1[u]);
      ClassesIgnoreCase(q2[u]);
      if q1[u] == '=' {
        RunEndIgnoresCase(Spaces, q1, q2, u + 1);
        ReadGroupIgnoresCase(c, q1, q2, RunEnd(Spaces, q1, u + 1));
      }
    }
  }

  /** The anchored matcher sees the query only up to ASCII case. */
  lemma MatchAtIgnoresCase(c: Clause, q1: string, q2: string, i: nat)
    requires LowerStr(q1) == LowerStr(q2) && i <= |q1|
    ensures |q1| == |q2| && MatchAt(c, q1, i) == MatchAt(c, q2, i)
  {
    KeywordAtIgnoresCase(q1, q2, i, Keyword(c));
    if KeywordAt(q1, i, Keyword(c)) {
      MatchRestIgnoresCase(c, q1, q2, i + |Keyword(c)|);
    }
    assert |q1| == |LowerStr(q1)|;
  }

  /** Scans with matchers that agree on the scanned positions find the same result. */
  lemma {:induction false} FirstFromAgree(m1: nat -> Option<Span>, m2: nat -> Option<Span>, n: nat, i: nat)
    requires i <= n
    requires forall j :: i <= j <= n ==> m1(j) == m2(j)
    ensures FirstFrom(m1, n, i) == FirstFrom(m2, n, i)
    decreases n - i
  {
    if m1(i).None? && i < n {
      FirstFromAgree(m1, m2, n, i + 1);
    }
  }

  /** `re.search` with IGNORECASE finds the same match in queries that lower-case alike. */
  lemma SearchIgnoresCase(c: Clause, q1: string, q2: string)
    requires LowerStr(q1) == LowerStr(q2)
    ensures Search(c, q1) == Search(c, q2)
  {
    assert |q1| == |LowerStr(q1)|;
    forall j | 0 <= j <= |q1|
      ensures Matcher(c, q1)(j) == Matcher(c, q2)(j)
    {
      MatchAtIgnoresCase(c, q1, q2, j);
    }
    FirstFromAgree(Matcher(c, q1), Matcher(c, q2), |q1|, 0);
  }

  /** A match at `i` with none before it is what the search returns. */
  lemma SearchFindsFirst(c: Clause, q: string, i: nat, s: Span)
    requires i <= |q| && MatchAt(c, q, i) == Some(s)
    requires forall j :: 0 <= j < i ==> MatchAt(c, q, j).None?
    ensures Search(c, q) == Some(Found(i, s))
  {
  }

  /** A clause cannot match inside a prefix where its keyword's first letter, in either case, does not occur. */
  lemma NoMatchWithoutInitial(c: Clause, q: string, p: string, r: string)
    requires q == p + r
    requires Keyword(c)[0] !in p && UpperChar(Keyword(c)[0]) !in p
    ensures forall j :: 0 <= j < |p| ==> MatchAt(c, q, j).None?
  {
    forall j | 0 <= j < |p|
      ensures MatchAt(c, q, j).None?
    {
      assert q[j] == p[j];
    }
  }

  /** A clause whose keyword's first letter occurs nowhere in the query is not found. */
  lemma SearchFailsWithoutInitial(c: Clause, q: string)
    requires Keyword(c)[0] !in q && UpperChar(Keyword(c)[0]) !in q
    ensures Search(c, q).None?
  {
    NoMatchWithoutInitial(c, q, q, "");
  }
}
