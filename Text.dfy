/**
  The few JavaScript string operations the application relies on, over `string` (a sequence of
  UTF-16 code units in the source): `trim`, `split` on one character, removal of every character of
  a class (`replace(/[..]/g, '')`), and the `\s` / `\d` character classes of JavaScript regular
  expressions.
*/
module Text {

  /** ECMAScript WhiteSpace and LineTerminator code points: what `trim()` removes and `\s` matches. */
  predicate IsSpace(c: char) {
    || c == '\t' || c == '\n' || c == '\U{B}' || c == '\U{C}' || c == '\r' || c == ' '
    || c == '\U{A0}' || c == '\U{1680}' || ('\U{2000}' <= c <= '\U{200A}')
    || c == '\U{2028}' || c == '\U{2029}' || c == '\U{202F}' || c == '\U{205F}'
    || c == '\U{3000}' || c == '\U{FEFF}'
  }

  /** The `\d` class of JavaScript regular expressions (ASCII digits only). */
  predicate IsDigit(c: char) {
    '0' <= c <= '9'
  }

  /** True when every character is white space, i.e. `s.trim() === ''`. */
  predicate IsBlank(s: string) {
    forall i :: 0 <= i < |s| ==> IsSpace(s[i])
  }

  /** The number of white-space characters `s` starts with. */
  function LeadingSpace(s: string): (n: nat)
    ensures n <= |s|
    ensures forall i :: 0 <= i < n ==> IsSpace(s[i])
    ensures n < |s| ==> !IsSpace(s[n])
  {
    if s != [] && IsSpace(s[0]) then 1 + LeadingSpace(s[1..]) else 0
  }

  /** The number of white-space characters `s` ends with. */
  function TrailingSpace(s: string): (n: nat)
    ensures n <= |s|
    ensures forall i :: |s| - n <= i < |s| ==> IsSpace(s[i])
    ensures n < |s| ==> !IsSpace(s[|s| - 1 - n])
  {
    if s != [] && IsSpace(s[|s| - 1]) then 1 + TrailingSpace(s[..|s| - 1]) else 0
  }

  /** Drops the leading white space: what a regular expression's `\s*` consumes at the start. */
  function TrimStart(s: string): (r: string)
    ensures |r| <= |s| && r == s[|s| - |r|..]
    ensures r != [] ==> !IsSpace(r[0])
    ensures forall i :: 0 <= i < |s| - |r| ==> IsSpace(s[i])
  {
    s[LeadingSpace(s)..]
  }

  /**
    `s.trim()`: the middle of `s` that starts after its leading white space, with only white space
    before and after it and none at either of its ends.
  */
  function Trim(s: string): (r: string)
    ensures var a := LeadingSpace(s);
      a + |r| <= |s| && r == s[a..a + |r|] && IsBlank(s[..a]) && IsBlank(s[a + |r|..])
    ensures r != [] ==> !IsSpace(r[0]) && !IsSpace(r[|r| - 1])
    ensures multiset(r) <= multiset(s)
  {
    var a := LeadingSpace(s);
    if a == |s| then
      BetweenBlanks(s, a, a);
      []
    else
      var b := |s| - TrailingSpace(s);
      assert !IsSpace(s[a]);
      BetweenBlanks(s, a, b);
      var r := s[a..b];
      assert r[0] == s[a] && r[|r| - 1] == s[b - 1];
      r
  }

  /** The piece of `s` between a blank start and a blank end is made of its characters. */
  lemma BetweenBlanks(s: string, a: nat, b: nat)
    requires a <= b <= |s|
    requires forall i :: 0 <= i < a ==> IsSpace(s[i])
    requires forall i :: b <= i < |s| ==> IsSpace(s[i])
    ensures IsBlank(s[..a]) && IsBlank(s[b..])
    ensures multiset(s[a..b]) <= multiset(s)
  {
    assert s == s[..a] + s[a..b] + s[b..];
  }

  /** An empty trimmed string is exactly a blank one, so `!s.trim()` tests blankness. */
  lemma TrimEmptyIffBlank(s: string)
    ensures Trim(s) == [] <==> IsBlank(s)
  {
    if Trim(s) == [] {
      assert LeadingSpace(s) == |s|;
    }
  }

  /** White space in front of a string that does not start with white space is all that is dropped. */
  lemma {:induction false} TrimStartBlankPrefix(ws: string, t: string)
    requires IsBlank(ws)
    requires t != [] ==> !IsSpace(t[0])
    ensures TrimStart(ws + t) == t
  {
    LeadingSpaceOfBlankPrefix(ws, t);
    assert (ws + t)[|ws|..] == t;
  }

  lemma {:induction false} LeadingSpaceOfBlankPrefix(ws: string, t: string)
    requires IsBlank(ws)
    requires t != [] ==> !IsSpace(t[0])
    ensures LeadingSpace(ws + t) == |ws|
    decreases ws
  {
    if ws != [] {
      assert (ws + t)[1..] == ws[1..] + t;
      LeadingSpaceOfBlankPrefix(ws[1..], t);
    }
  }

  /** Trimming a string that has no white space at either end leaves it unchanged. */
  lemma TrimOfTrimmed(s: string)
    requires s != [] ==> !IsSpace(s[0]) && !IsSpace(s[|s| - 1])
    ensures Trim(s) == s
  {
  }

  /** `s.split(sep)` for a one-character separator: the pieces between separators, always at least one. */
  function Split(s: string, sep: char): (r: seq<string>)
    ensures |r| >= 1
    ensures forall i :: 0 <= i < |r| ==> sep !in r[i]
    ensures |r| == multiset(s)[sep] + 1
  {
    if s == [] then [""]
    else
      var rest := Split(s[1..], sep);
      assert s == [s[0]] + s[1..];
      if s[0] == sep then [""] + rest
      else [[s[0]] + rest[0]] + rest[1..]
  }

  /** `parts.join(sep)`. */
  function Join(parts: seq<string>, sep: char): string
    requires |parts| >= 1
  {
    if |parts| == 1 then parts[0] else parts[0] + [sep] + Join(parts[1..], sep)
  }

  /** Joining after an empty first piece starts with the separator. */
  lemma JoinAfterEmpty(rest: seq<string>, sep: char)
    requires |rest| >= 1
    ensures Join([""] + rest, sep) == [sep] + Join(rest, sep)
  {
    assert ([""] + rest)[1..] == rest;
  }

  /** Joining after a character prepended to the first piece starts with that character. */
  lemma JoinAfterChar(c: char, rest: seq<string>, sep: char)
    requires |rest| >= 1
    ensures Join([[c] + rest[0]] + rest[1..], sep) == [c] + Join(rest, sep)
  {
    var r := [[c] + rest[0]] + rest[1..];
    if |rest| > 1 {
      assert r[1..] == rest[1..];
    }
  }

  /** Splitting and joining again on the same separator gives the original string back. */
  lemma {:induction false} JoinSplit(s: string, sep: char)
    ensures Join(Split(s, sep), sep) == s
  {
    if s != [] {
      JoinSplit(s[1..], sep);
      var rest := Split(s[1..], sep);
      assert s == [s[0]] + s[1..];
      if s[0] == sep {
        JoinAfterEmpty(rest, sep);
      } else {
        JoinAfterChar(s[0], rest, sep);
      }
    }
  }

  /** Every character of `bad` removed, the others kept in order: `s.replace(/[bad]/g, '')`. */
  function RemoveChars(s: string, bad: set<char>): (r: string)
    ensures |r| <= |s|
    ensures forall i :: 0 <= i < |r| ==> r[i] !in bad
    ensures forall c :: c !in bad ==> multiset(r)[c] == multiset(s)[c]
  {
    if s == [] then []
    else
      assert s == [s[0]] + s[1..];
      (if s[0] in bad then [] else [s[0]]) + RemoveChars(s[1..], bad)
  }

  /** A string holding none of the removed characters is left as it is, so the removal is idempotent. */
  lemma {:induction false} RemoveCharsOfClean(s: string, bad: set<char>)
    requires forall i :: 0 <= i < |s| ==> s[i] !in bad
    ensures RemoveChars(s, bad) == s
  {
    if s != [] {
      RemoveCharsOfClean(s[1..], bad);
    }
  }
}
