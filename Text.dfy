/**
 * String helpers shared by the chat widget and the answer server: the two
 * whitespace classes (JavaScript's String.prototype.trim and Python's
 * str.strip / str.split disagree on a few code points), stripping, ASCII
 * lower-casing, substring search, joining and word counting.
 * Strings are sequences of Unicode code points.
 */
module Text {

  /** White space as JavaScript's trim() removes it: WhiteSpace plus LineTerminator. */
  predicate IsJsSpace(c: char) {
    ('\t' <= c <= '\r') || c == ' ' || c == '\U{00A0}' || c == '\U{1680}'
    || ('\U{2000}' <= c <= '\U{200A}') || c == '\U{2028}' || c == '\U{2029}'
    || c == '\U{202F}' || c == '\U{205F}' || c == '\U{3000}' || c == '\U{FEFF}'
  }

  /** White space as Python's str.isspace() sees it (used by strip() and split()). */
  predicate IsPySpace(c: char) {
    ('\t' <= c <= '\r') || ('\U{001C}' <= c <= '\U{001F}') || c == ' ' || c == '\U{0085}'
    || c == '\U{00A0}' || c == '\U{1680}' || ('\U{2000}' <= c <= '\U{200A}')
    || c == '\U{2028}' || c == '\U{2029}' || c == '\U{202F}' || c == '\U{205F}' || c == '\U{3000}'
  }

  predicate AllSpace(s: string, isSpace: char -> bool) {
    forall i :: 0 <= i < |s| ==> isSpace(s[i])
  }

  /** Drops the leading white space: what is left is a suffix of s that does not start with white space. */
  function TrimStart(s: string, isSpace: char -> bool): (r: string)
    ensures |r| <= |s| && r == s[|s| - |r|..]
    ensures AllSpace(s[..|s| - |r|], isSpace)
    ensures r != [] ==> !isSpace(r[0])
    decreases |s|
  {
    if s != [] && isSpace(s[0]) then TrimStart(s[1..], isSpace) else s
  }

  /** Drops the trailing white space: what is left is a prefix of s that does not end with white space. */
  function TrimEnd(s: string, isSpace: char -> bool): (r: string)
    ensures |r| <= |s| && r == s[..|r|]
    ensures AllSpace(s[|r|..], isSpace)
    ensures r != [] ==> !isSpace(r[|r| - 1])
    decreases |s|
  {
    if s != [] && isSpace(s[|s| - 1]) then TrimEnd(s[..|s| - 1], isSpace) else s
  }

  /** Both ends stripped: JavaScript's s.trim() with IsJsSpace, Python's s.strip() with IsPySpace. */
  function Strip(s: string, isSpace: char -> bool): (r: string)
  {
    TrimEnd(TrimStart(s, isSpace), isSpace)
  }

  /** The stripped string is the slice of s between its leading and its trailing white space. */
  lemma StripIsSlice(s: string, isSpace: char -> bool)
    ensures var lead := |s| - |TrimStart(s, isSpace)|;
            var r := Strip(s, isSpace);
            lead + |r| <= |s| && r == s[lead..lead + |r|]
            && AllSpace(s[..lead], isSpace) && AllSpace(s[lead + |r|..], isSpace)
            && (r != [] ==> !isSpace(r[0]) && !isSpace(r[|r| - 1]))
  {
    var t := TrimStart(s, isSpace);
    var lead := |s| - |t|;
    var r := TrimEnd(t, isSpace);
    assert s[lead + |r|..] == t[|r|..];
  }

  /** Stripping yields the empty string exactly when the input is all white space. */
  lemma StripEmptyIff(s: string, isSpace: char -> bool)
    ensures Strip(s, isSpace) == [] <==> AllSpace(s, isSpace)
  {
    StripIsSlice(s, isSpace);
    var lead := |s| - |TrimStart(s, isSpace)|;
    if Strip(s, isSpace) == [] {
      // a non-empty TrimStart keeps its first, non-white-space character through TrimEnd
      assert TrimStart(s, isSpace) == [];
      assert s[..lead] == s;
    }
  }

  /** A string that neither starts nor ends with white space is its own stripped form. */
  lemma StripUnpadded(s: string, isSpace: char -> bool)
    requires s != [] && !isSpace(s[0]) && !isSpace(s[|s| - 1])
    ensures Strip(s, isSpace) == s
  {
    assert TrimStart(s, isSpace) == s;
  }

  /** ASCII lower-casing of one character; every other character is left alone. */
  function LowerChar(c: char): char {
    if 'A' <= c <= 'Z' then (c as int + 32) as char else c
  }

  function Lower(s: string): string
  {
    seq(|s|, i requires 0 <= i < |s| => LowerChar(s[i]))
  }

  /** p occurs in s starting at position i. */
  predicate OccursAt(s: string, p: string, i: nat) {
    i + |p| <= |s| && s[i..i + |p|] == p
  }

  /** Python's `p in s` and the substring test of a regular expression without metacharacters. */
  predicate Contains(s: string, p: string) {
    exists i | 0 <= i <= |s| :: OccursAt(s, p, i)
  }

  /** Python's sep.join(parts) and JavaScript's parts.join(sep). */
  function Join(parts: seq<string>, sep: string): string
  {
    if |parts| == 0 then ""
    else if |parts| == 1 then parts[0]
    else parts[0] + sep + Join(parts[1..], sep)
  }

  /** Number of maximal runs of non-white-space characters after a character whose
      white-space-ness is prevSpace: the length of Python's s.split(). */
  function WordStarts(s: string, isSpace: char -> bool, prevSpace: bool): nat
  {
    if s == [] then 0
    else (if prevSpace && !isSpace(s[0]) then 1 else 0) + WordStarts(s[1..], isSpace, isSpace(s[0]))
  }

  function WordCount(s: string, isSpace: char -> bool): nat {
    WordStarts(s, isSpace, true)
  }
}
