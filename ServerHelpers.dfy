/**
 * The answer server's pure helpers (server.py): year extraction, greeting
 * detection, and the keyword lookup in the knowledge base (KB).
 *
 * Regular-expression pattern lists are abstract: a Pattern stands for
 * `re.search(pat, t)` on an already lower-cased text, and a list of them is
 * tried in order as the source's `for pat in ...` loops do.
 */
module ServerHelpers {
  import opened Wrappers
  import opened Text

  /** `re.search(pat, t)` for one pattern of a family, as a predicate on the text. */
  type Pattern = string -> bool

  /** Some pattern of the family matches t. */
  predicate AnyMatch(patterns: seq<Pattern>, t: string) {
    exists i | 0 <= i < |patterns| :: patterns[i](t)
  }

  /** `for pat in patterns: if re.search(pat, t): ...` : tries the patterns in order and stops at the first match. */
  method SearchPatterns(patterns: seq<Pattern>, t: string) returns (hit: bool)
    ensures hit <==> AnyMatch(patterns, t)
  {
    for i := 0 to |patterns|
      invariant forall j :: 0 <= j < i ==> !patterns[j](t)
    {
      if patterns[i](t) {
        return true;
      }
    }
    return false;
  }

  // ---------------------------------------------------------------------------
  // extract_most_recent_year

  predicate IsDigit(c: char) {
    '0' <= c <= '9'
  }

  function Digit(c: char): int
    requires IsDigit(c)
  {
    c as int - '0' as int
  }

  /** The pattern (?:19|20)\d{2} matches the four characters of s starting at i. */
  predicate YearAt(s: string, i: nat) {
    i + 4 <= |s|
    && ((s[i] == '1' && s[i + 1] == '9') || (s[i] == '2' && s[i + 1] == '0'))
    && IsDigit(s[i + 2]) && IsDigit(s[i + 3])
  }

  function YearValue(s: string, i: nat): int
    requires YearAt(s, i)
  {
    1000 * Digit(s[i]) + 100 * Digit(s[i + 1]) + 10 * Digit(s[i + 2]) + Digit(s[i + 3])
  }

  /** re.findall of the year pattern: matches left to right, resuming after each match, as numbers. */
  function FindYears(s: string): (years: seq<int>)
    ensures forall k :: 0 <= k < |years| ==> 1900 <= years[k] <= 2099
    decreases |s|
  {
    if |s| < 4 then []
    else if YearAt(s, 0) then [YearValue(s, 0)] + FindYears(s[4..])
    else FindYears(s[1..])
  }

  /** Every year found is the value of a match somewhere in s. */
  lemma {:induction false} FindYearsSound(s: string, k: nat)
    requires k < |FindYears(s)|
    ensures exists i: nat :: YearAt(s, i) && YearValue(s, i) == FindYears(s)[k]
    decreases |s|
  {
    if YearAt(s, 0) && k == 0 {
      assert YearAt(s, 0) && YearValue(s, 0) == FindYears(s)[k];
    } else if YearAt(s, 0) {
      FindYearsSound(s[4..], k - 1);
      var i: nat :| YearAt(s[4..], i) && YearValue(s[4..], i) == FindYears(s[4..])[k - 1];
      assert YearAt(s, i + 4) && YearValue(s, i + 4) == FindYears(s)[k];
    } else {
      FindYearsSound(s[1..], k);
      var i: nat :| YearAt(s[1..], i) && YearValue(s[1..], i) == FindYears(s[1..])[k];
      assert YearAt(s, i + 1) && YearValue(s, i + 1) == FindYears(s)[k];
    }
  }

  /** A match anywhere in s means findall finds at least one year. */
  lemma {:induction false} FindYearsComplete(s: string, i: nat)
    requires YearAt(s, i)
    ensures FindYears(s) != []
    decreases |s|
  {
    if !YearAt(s, 0) {
      assert YearAt(s[1..], i - 1);
      FindYearsComplete(s[1..], i - 1);
    }
  }

  /** The largest element of a non-empty sequence (Python's max). */
  function MaxOf(xs: seq<int>): (m: int)
    requires xs != []
    ensures m in xs && forall k :: 0 <= k < |xs| ==> xs[k] <= m
  {
    if |xs| == 1 then xs[0]
    else var rest := MaxOf(xs[1..]); if xs[0] >= rest then xs[0] else rest
  }

  /** extract_most_recent_year: the largest four-digit 19xx/20xx year in the text, or None. */
  function ExtractMostRecentYear(text: string): (r: Option<int>)
    ensures r.None? <==> FindYears(text) == []
    ensures r.Some? ==> r.value in FindYears(text)
    ensures r.Some? ==> forall k :: 0 <= k < |FindYears(text)| ==> FindYears(text)[k] <= r.value
    ensures r.Some? ==> 1900 <= r.value <= 2099
  {
    if text == "" then None
    else
      var years := FindYears(text);
      if years == [] then None else Some(MaxOf(years))
  }

  /** None exactly when no position of the text matches the year pattern; otherwise the
      year returned is the value of a match found somewhere in the text. */
  lemma ExtractMostRecentYearSpec(text: string)
    ensures ExtractMostRecentYear(text).None? <==> forall i: nat :: !YearAt(text, i)
    ensures ExtractMostRecentYear(text).Some? ==>
              exists i: nat :: YearAt(text, i) && YearValue(text, i) == ExtractMostRecentYear(text).value
  {
    var r := ExtractMostRecentYear(text);
    if r.None? {
      forall i: nat ensures !YearAt(text, i) {
        if YearAt(text, i) { FindYearsComplete(text, i); }
      }
    } else {
      var years := FindYears(text);
      var k :| 0 <= k < |years| && years[k] == r.value;
      FindYearsSound(text, k);
    }
  }

  /** Matches are taken left to right without overlap, so a year that overlaps an earlier
      match is not seen: in "192099" only 1920 is found, although "2099" also fits the pattern. */
  lemma OverlappingYearNotSeen()
    ensures YearAt("192099", 2) && YearValue("192099", 2) == 2099
    ensures ExtractMostRecentYear("192099") == Some(1920)
  {
    var s := "192099";
    assert YearAt(s, 0) && YearValue(s, 0) == 1920;
    assert s[4..] == "99";
    assert FindYears(s) == [1920] + FindYears("99");
  }

  // ---------------------------------------------------------------------------
  // is_greeting

  /** The exact phrases of is_greeting's fallback: four of one word, two of three words. */
  const ShortPhrases: set<string> := {"hey", "hi", "hello", "hiya"}
  const LongPhrases: set<string> := {"how are you", "how r u"}
  const GreetingWords: set<string> := ShortPhrases + LongPhrases

  /** is_greeting as written: false on empty text; otherwise some greeting pattern matches the
      lower-cased, stripped text, or that text has at most two words and is one of the phrases. */
  function GreetsAsWritten(text: string, patterns: seq<Pattern>): bool {
    if text == "" then false
    else
      var t := Strip(Lower(text), IsPySpace);
      AnyMatch(patterns, t) || (WordCount(t, IsPySpace) <= 2 && t in GreetingWords)
  }

  /** "how r u" has three words in the sense of Python's split(). */
  lemma HowRUWords()
    ensures WordCount("how r u", IsPySpace) == 3
  {
    assert WordStarts("u", IsPySpace, false) == 0;
    assert WordStarts(" u", IsPySpace, true) == 1;
    assert WordStarts("r u", IsPySpace, false) == 0 + WordStarts(" u", IsPySpace, false);
  }

  /** "how r u" is already lower-cased and stripped. */
  lemma HowRUNormal()
    ensures Strip(Lower("how r u"), IsPySpace) == "how r u"
  {
    var t := "how r u";
    assert Lower(t) == t;
    StripUnpadded(t, IsPySpace);
  }

  /** A run of non-white-space characters after a non-white-space character starts no new word. */
  lemma {:induction false} NoWordStarts(s: string, isSpace: char -> bool)
    requires forall i :: 0 <= i < |s| ==> !isSpace(s[i])
    ensures WordStarts(s, isSpace, false) == 0
    decreases |s|
  {
    if s != [] {
      NoWordStarts(s[1..], isSpace);
    }
  }

  /** A non-empty string without white space is one word. */
  lemma OneWord(w: string, isSpace: char -> bool)
    requires w != [] && forall i :: 0 <= i < |w| ==> !isSpace(w[i])
    ensures WordCount(w, isSpace) == 1
  {
    NoWordStarts(w[1..], isSpace);
  }

  /** Each one-word phrase of the fallback is one word in the sense of Python's split(). */
  lemma ShortPhraseWords(t: string)
    requires t in ShortPhrases
    ensures WordCount(t, IsPySpace) == 1
  {
    if t == "hey" {
      OneWord("hey", IsPySpace);
    } else if t == "hi" {
      OneWord("hi", IsPySpace);
    } else if t == "hello" {
      OneWord("hello", IsPySpace);
    } else {
      OneWord("hiya", IsPySpace);
    }
  }

  /** As written, the one-word phrases are greetings in any case and with any surrounding
      white space, whatever the patterns. */
  lemma ShortPhrasesGreetAsWritten(text: string, patterns: seq<Pattern>)
    ensures Strip(Lower(text), IsPySpace) in ShortPhrases ==> GreetsAsWritten(text, patterns)
  {
    var t := Strip(Lower(text), IsPySpace);
    if t in ShortPhrases {
      assert t != [];
      assert text != [];
      ShortPhraseWords(t);
      assert t in GreetingWords;
    }
  }

  /** The two-word bound makes the phrase "how r u" unreachable: with a pattern family that
      does not match it, the text "how r u" is not taken for a greeting. */
  lemma ThreeWordPhraseMissed(patterns: seq<Pattern>)
    requires !AnyMatch(patterns, "how r u")
    ensures "how r u" in GreetingWords
    ensures !GreetsAsWritten("how r u", patterns)
  {
    HowRUNormal();
    HowRUWords();
  }

  /** is_greeting as evidently intended: every listed phrase counts, whatever its word count. */
  function Greets(text: string, patterns: seq<Pattern>): bool {
    if text == "" then false
    else
      var t := Strip(Lower(text), IsPySpace);
      AnyMatch(patterns, t) || t in GreetingWords
  }

  /** Every listed phrase, in any case and with any surrounding white space, is a greeting;
      the empty text never is. */
  lemma GreetingPhrasesGreet(text: string, patterns: seq<Pattern>)
    ensures Strip(Lower(text), IsPySpace) in GreetingWords ==> Greets(text, patterns)
    ensures text == "" ==> !Greets(text, patterns)
  {
    if text == "" {
      assert Lower(text) == "";
      assert Strip(Lower(text), IsPySpace) == "";
    }
  }

  /** The two definitions differ only on the three-word phrases. */
  lemma GreetsExtendsAsWritten(text: string, patterns: seq<Pattern>)
    ensures GreetsAsWritten(text, patterns) ==> Greets(text, patterns)
    ensures Greets(text, patterns) && !GreetsAsWritten(text, patterns) ==>
              Strip(Lower(text), IsPySpace) in LongPhrases
  {
    var t := Strip(Lower(text), IsPySpace);
    if Greets(text, patterns) && !GreetsAsWritten(text, patterns) && t in ShortPhrases {
      ShortPhraseWords(t);
      assert false;
    }
  }

  /** is_greeting as written: the loop over the greeting patterns, then the phrase
      fallback with its two-word bound. */
  method IsGreeting(text: string, patterns: seq<Pattern>) returns (b: bool)
    ensures b == GreetsAsWritten(text, patterns)
  {
    if text == "" {
      return false;
    }
    var t := Strip(Lower(text), IsPySpace);
    var hit := SearchPatterns(patterns, t);
    if hit {
      return true;
    }
    return WordCount(t, IsPySpace) <= 2 && t in GreetingWords;
  }

  // ---------------------------------------------------------------------------
  // find_kb_snippet

  /** A knowledge-base entry; an absent field reads as the empty string. */
  datatype KbItem = KbItem(id: Option<string>, title: string, summary: string, text: string)

  datatype Snippet = Snippet(title: string, summary: string, text: string)

  function SnippetOf(item: KbItem): Snippet {
    Snippet(item.title, item.summary, item.text)
  }

  /** The lower-cased, space-joined title, summary and text of an entry. */
  function Blob(item: KbItem): string {
    Lower(item.title + " " + item.summary + " " + item.text)
  }

  function LowerAll(keywords: seq<string>): seq<string>
  {
    seq(|keywords|, k requires 0 <= k < |keywords| => Lower(keywords[k]))
  }

  /** Some (already lower-cased) key is a substring of the entry's blob. */
  predicate Mentions(item: KbItem, keys: seq<string>) {
    exists k | 0 <= k < |keys| :: Contains(Blob(item), keys[k])
  }

  /** The position of the first entry, in KB order, that mentions some key. */
  function FirstMention(kb: seq<KbItem>, keys: seq<string>): (r: Option<nat>)
    ensures r.Some? ==> r.value < |kb| && Mentions(kb[r.value], keys)
    ensures r.Some? ==> forall j :: 0 <= j < r.value ==> !Mentions(kb[j], keys)
    ensures r.None? ==> forall j :: 0 <= j < |kb| ==> !Mentions(kb[j], keys)
  {
    if kb == [] then None
    else if Mentions(kb[0], keys) then Some(0)
    else match FirstMention(kb[1..], keys)
      case None => None
      case Some(i) => Some(i + 1)
  }

  /** What find_kb_snippet returns for these keywords. */
  function KbSnippet(kb: seq<KbItem>, keywords: seq<string>): Option<Snippet> {
    match FirstMention(kb, LowerAll(keywords))
    case Some(i) => Some(SnippetOf(kb[i]))
    case None => None
  }

  /** find_kb_snippet: the outer loop over entries, the inner loop over keys, return on the first hit. */
  method FindKbSnippet(kb: seq<KbItem>, keywords: seq<string>) returns (found: Option<Snippet>)
    ensures found == KbSnippet(kb, keywords)
    ensures found.None? <==> forall j :: 0 <= j < |kb| ==> !Mentions(kb[j], LowerAll(keywords))
  {
    var keys := LowerAll(keywords);
    for i := 0 to |kb|
      invariant forall j :: 0 <= j < i ==> !Mentions(kb[j], keys)
    {
      var blob := Blob(kb[i]);
      for k := 0 to |keys|
        invariant forall m :: 0 <= m < k ==> !Contains(blob, keys[m])
      {
        if Contains(blob, keys[k]) {
          return Some(SnippetOf(kb[i]));
        }
      }
    }
    return None;
  }
}
