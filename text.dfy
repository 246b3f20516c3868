/**
 * ASCII character classes and string helpers as Python's `re` and `str`
 * see them when the input is restricted to ASCII.
 */
module Text {

  /** Python's `\s` on ASCII: TAB, LF, VT, FF, CR, the separators 0x1C-0x1F, and space. */
  predicate IsSpace(c: char) {
    0x09 <= c as int <= 0x0D || 0x1C <= c as int <= 0x20
  }

  /** Python's `\w` on ASCII: letters, digits and underscore. */
  predicate IsWordChar(c: char) {
    'a' <= c <= 'z' || 'A' <= c <= 'Z' || '0' <= c <= '9' || c == '_'
  }

  /** A member of the character class `['"]`. */
  predicate IsQuote(c: char) {
    c == '\'' || c == '"'
  }

  /** `str.lower` on one ASCII character; every other character is left alone. */
  function LowerChar(c: char): char {
    if 'A' <= c <= 'Z' then (c as int + 32) as char else c
  }

  /** `str.upper` on one ASCII character; every other character is left alone. */
  function UpperChar(c: char): char {
    if 'a' <= c <= 'z' then (c as int - 32) as char else c
  }

  function LowerStr(s: string): string {
    seq(|s|, k requires 0 <= k < |s| => LowerChar(s[k]))
  }

  function UpperStr(s: string): string {
    seq(|s|, k requires 0 <= k < |s| => UpperChar(s[k]))
  }

  /** Two characters that lower-case alike upper-case alike. */
  lemma UpperOfSameLower(a: char, b: char)
    requires LowerChar(a) == LowerChar(b)
    ensures UpperChar(a) == UpperChar(b)
  {
  }

  /** Lower-casing leaves the character classes the patterns test unchanged. */
  lemma ClassesIgnoreCase(c: char)
    ensures IsSpace(LowerChar(c)) == IsSpace(c)
    ensures IsWordChar(LowerChar(c)) == IsWordChar(c)
    ensures IsQuote(LowerChar(c)) == IsQuote(c)
    ensures (LowerChar(c) == '=') == (c == '=')
  {
  }

  /** Upper-casing is idempotent: a key once upper-cased is its own upper case. */
  lemma UpperStrIdempotent(s: string)
    ensures UpperStr(UpperStr(s)) == UpperStr(s)
  {
  }

  /** Strings that lower-case alike have the same length and lower-case alike in every slice. */
  lemma LowerSlice(a: string, b: string, i: nat, j: nat)
    requires LowerStr(a) == LowerStr(b) && i <= j <= |a|
    ensures |a| == |b| && LowerStr(a[i..j]) == LowerStr(b[i..j])
  {
    assert |a| == |LowerStr(a)|;
    forall k | 0 <= k < j - i
      ensures LowerChar(a[i..j][k]) == LowerChar(b[i..j][k])
    {
      assert LowerStr(a)[i + k] == LowerStr(b)[i + k];
    }
  }

  /** Strings that lower-case alike upper-case alike. */
  lemma UpperStrOfSameLower(a: string, b: string)
    requires LowerStr(a) == LowerStr(b)
    ensures UpperStr(a) == UpperStr(b)
  {
    assert |a| == |LowerStr(a)|;
    forall k | 0 <= k < |a|
      ensures UpperChar(a[k]) == UpperChar(b[k])
    {
      assert LowerStr(a)[k] == LowerStr(b)[k];
      UpperOfSameLower(a[k], b[k]);
    }
  }

  /** Python's `sep.join(parts)`. */
  function Join(parts: seq<string>, sep: string): string
    decreases |parts|
  {
    if |parts| == 0 then ""
    else if |parts| == 1 then parts[0]
    else parts[0] + sep + Join(parts[1..], sep)
  }

  /** Python's `s.split(d)` for a one-character separator `d`. */
  function Split(s: string, d: char): (r: seq<string>)
    ensures |r| >= 1
    decreases |s|
  {
    if |s| == 0 then [""]
    else
      var rest := Split(s[1..], d);
      if s[0] == d then [""] + rest else [[s[0]] + rest[0]] + rest[1..]
  }

  /** Splitting `p + t` where `p` holds no separator glues `p` to the first piece of `t`. */
  lemma {:induction false} SplitPrefix(p: string, t: string, d: char)
    requires d !in p
    ensures Split(p + t, d) == [p + Split(t, d)[0]] + Split(t, d)[1..]
    decreases |p|
  {
    if |p| > 0 {
      assert (p + t)[1..] == p[1..] + t;
      SplitPrefix(p[1..], t, d);
      assert [p[0]] + (p[1..] + Split(t, d)[0]) == p + Split(t, d)[0];
    } else {
      assert p + t == t;
      assert p + Split(t, d)[0] == Split(t, d)[0];
    }
  }

  /** Splitting a join on a separator no part contains gives the parts back. */
  lemma {:induction false} SplitJoin(parts: seq<string>, d: char)
    requires |parts| >= 1
    requires forall k :: 0 <= k < |parts| ==> d !in parts[k]
    ensures Split(Join(parts, [d]), d) == parts
    decreases |parts|
  {
    if |parts| == 1 {
      SplitPrefix(parts[0], "", d);
      assert parts[0] + "" == parts[0];
    } else {
      var tail := Join(parts[1..], [d]);
      SplitJoin(parts[1..], d);
      assert Join(parts, [d]) == parts[0] + ([d] + tail);
      SplitPrefix(parts[0], [d] + tail, d);
      assert ([d] + tail)[1..] == tail;
      assert Split([d] + tail, d) == [""] + parts[1..];
      assert parts[0] + "" == parts[0];
    }
  }

  /** The first part of a join is a prefix of it. */
  lemma JoinStartsWithFirst(parts: seq<string>, sep: string)
    requires |parts| >= 1
    ensures |parts[0]| <= |Join(parts, sep)| && Join(parts, sep)[..|parts[0]|] == parts[0]
  {
    if |parts| > 1 {
      assert Join(parts, sep) == parts[0] + (sep + Join(parts[1..], sep));
    }
  }

  /** The last part of a join is a suffix of it. */
  lemma {:induction false} JoinEndsWithLast(parts: seq<string>, sep: string)
    requires |parts| >= 1
    ensures |parts[|parts| - 1]| <= |Join(parts, sep)|
    ensures Join(parts, sep)[|Join(parts, sep)| - |parts[|parts| - 1]|..] == parts[|parts| - 1]
    decreases |parts|
  {
    if |parts| > 1 {
      JoinEndsWithLast(parts[1..], sep);
      var j := Join(parts, sep);
      var t := Join(parts[1..], sep);
      assert j == (parts[0] + sep) + t;
      assert j[|j| - |t|..] == t;
      assert parts[1..][|parts[1..]| - 1] == parts[|parts| - 1];
    }
  }
}
