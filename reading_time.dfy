/**
 * The post page's reading-time estimate: strip the markup from a post body,
 * count its words, turn the count into whole minutes (nothing below 200
 * words), and format the minutes as "N min read".
 *
 * Strings are sequences of characters; the JavaScript regular expressions
 * `/<[^>]*>/g`, `/\s+/g` and `/\s+/` and the methods `trim` and `split`
 * are written out as recursive functions, and each is tied by lemmas to one
 * reference notion: the number of words, a word being a maximal run of
 * characters that are not whitespace.
 */
module ReadingTime {

  /** Average reading speed, in words per minute. */
  const WordsPerMinute: nat := 200

  /** Content with fewer words than this gets no reading time. */
  const MinWordCount: nat := 200

  // ---------------------------------------------------------------------
  // Characters and scanning
  // ---------------------------------------------------------------------

  /**
   * JavaScript's `\s`, which is also the set `trim` removes: the WhiteSpace
   * characters (TAB, VT, FF, SPACE, NO-BREAK SPACE, ZERO WIDTH NO-BREAK SPACE
   * and the Space_Separator category) and the LineTerminators (LF, CR, LINE
   * SEPARATOR, PARAGRAPH SEPARATOR).
   */
  predicate IsSpace(c: char)
  {
    ('\t' <= c <= '\r') || c == ' ' || c == '\U{00A0}' || c == '\U{1680}'
    || ('\U{2000}' <= c <= '\U{200A}') || c == '\U{2028}' || c == '\U{2029}'
    || c == '\U{202F}' || c == '\U{205F}' || c == '\U{3000}' || c == '\U{FEFF}'
  }

  /** The length of the run of whitespace `s` starts with. */
  function SpaceRun(s: string): (n: nat)
    ensures n <= |s|
    ensures forall i :: 0 <= i < n ==> IsSpace(s[i])
    ensures n < |s| ==> !IsSpace(s[n])
  {
    if |s| > 0 && IsSpace(s[0]) then 1 + SpaceRun(s[1..]) else 0
  }

  /** The index of the first whitespace character of `s`, or `|s|` when there is none. */
  function FirstSpace(s: string): (n: nat)
    ensures n <= |s|
    ensures n < |s| ==> IsSpace(s[n])
  {
    if |s| == 0 || IsSpace(s[0]) then 0 else 1 + FirstSpace(s[1..])
  }

  /** The index of the first `c` in `s`, or `|s|` when there is none. */
  function IndexOf(s: string, c: char): (n: nat)
    ensures n <= |s|
    ensures forall i :: 0 <= i < n ==> s[i] != c
    ensures n < |s| ==> s[n] == c
  {
    if |s| == 0 || s[0] == c then 0 else 1 + IndexOf(s[1..], c)
  }

  // ---------------------------------------------------------------------
  // Words, the reference notion
  // ---------------------------------------------------------------------

  /** The number of words of `s`: maximal runs of characters that are not whitespace. */
  function Words(s: string): nat
  {
    WordsAfter(s, true)
  }

  /**
   * The words that start in `s` when the character before `s` is whitespace
   * or `s` begins the text (`boundary`), or is part of a word (`!boundary`):
   * one for every non-whitespace character that follows a boundary.
   */
  function WordsAfter(s: string, boundary: bool): nat
  {
    if |s| == 0 then 0
    else (if boundary && !IsSpace(s[0]) then 1 else 0) + WordsAfter(s[1..], IsSpace(s[0]))
  }

  /** A run of whitespace is one boundary, however long it is. */
  lemma {:induction false} SkipSpaces(s: string, boundary: bool)
    requires |s| > 0 && IsSpace(s[0])
    ensures WordsAfter(s, boundary) == WordsAfter(s[SpaceRun(s)..], true)
    decreases |s|
  {
    if |s| > 1 && IsSpace(s[1]) {
      SkipSpaces(s[1..], true);
      assert s[1..][SpaceRun(s[1..])..] == s[SpaceRun(s)..];
    } else {
      assert SpaceRun(s) == 1;
    }
  }

  /** A word at the front of `s` counts once, when a boundary precedes it. */
  lemma {:induction false} SkipWord(s: string, boundary: bool)
    ensures WordsAfter(s, boundary)
      == (if boundary && FirstSpace(s) > 0 then 1 else 0)
       + WordsAfter(s[FirstSpace(s)..], boundary && FirstSpace(s) == 0)
    decreases |s|
  {
    if |s| == 0 || IsSpace(s[0]) {
      assert s[0..] == s;
    } else {
      SkipWord(s[1..], false);
      assert s[1..][FirstSpace(s[1..])..] == s[FirstSpace(s)..];
    }
  }

  /** Whitespace at the end of `s` starts no word. */
  lemma {:induction false} DropTrailingSpace(s: string, boundary: bool)
    requires |s| > 0 && IsSpace(s[|s| - 1])
    ensures WordsAfter(s, boundary) == WordsAfter(s[..|s| - 1], boundary)
    decreases |s|
  {
    if |s| > 1 {
      DropTrailingSpace(s[1..], IsSpace(s[0]));
      assert s[1..][..|s| - 2] == s[..|s| - 1][1..];
    }
  }

  // ---------------------------------------------------------------------
  // text.replace(/<[^>]*>/g, '')
  // ---------------------------------------------------------------------

  /**
   * Deletes every tag: scanning left to right, a '<' that has a '>' somewhere
   * after it is deleted together with everything up to the first such '>';
   * a '<' with no '>' after it stays, and so does every other character.
   */
  function StripTags(s: string): (r: string)
    ensures |r| <= |s|
    ensures forall c :: c in r ==> c in s
    decreases |s|
  {
    if |s| == 0 then ""
    else if s[0] == '<' && IndexOf(s[1..], '>') < |s| - 1 then StripTags(s[IndexOf(s[1..], '>') + 2..])
    else [s[0]] + StripTags(s[1..])
  }

  /** No '<' in `s` has a '>' after it: there is no tag left to delete. */
  predicate TagFree(s: string)
  {
    forall i, j :: 0 <= i < j < |s| && s[i] == '<' ==> s[j] != '>'
  }

  /** What StripTags leaves holds no tag. */
  lemma {:induction false} StripTagsLeavesNoTag(s: string)
    ensures TagFree(StripTags(s))
    decreases |s|
  {
    if |s| == 0 {
    } else if s[0] == '<' && IndexOf(s[1..], '>') < |s| - 1 {
      StripTagsLeavesNoTag(s[IndexOf(s[1..], '>') + 2..]);
    } else {
      StripTagsLeavesNoTag(s[1..]);
      var r := StripTags(s[1..]);
      if s[0] == '<' {
        assert '>' !in s[1..];
        assert '>' !in r;
      }
      assert StripTags(s) == [s[0]] + r;
    }
  }

  /** Text holding no tag passes through unchanged. */
  lemma {:induction false} StripTagsKeepsTagFree(s: string)
    requires TagFree(s)
    ensures StripTags(s) == s
    decreases |s|
  {
    if |s| > 0 {
      if s[0] == '<' {
        assert forall j :: 0 <= j < |s| - 1 ==> s[1..][j] != '>' by {
          forall j | 0 <= j < |s| - 1
            ensures s[1..][j] != '>'
          {
            assert s[1..][j] == s[j + 1];
          }
        }
      }
      assert TagFree(s[1..]) by {
        forall i, j | 0 <= i < j < |s| - 1 && s[1..][i] == '<'
          ensures s[1..][j] != '>'
        {
          assert s[1..][i] == s[i + 1] && s[1..][j] == s[j + 1];
        }
      }
      StripTagsKeepsTagFree(s[1..]);
      assert [s[0]] + s[1..] == s;
    }
  }

  /** Stripping twice is stripping once. */
  lemma StripTagsIdempotent(s: string)
    ensures StripTags(StripTags(s)) == StripTags(s)
  {
    StripTagsLeavesNoTag(s);
    StripTagsKeepsTagFree(StripTags(s));
  }

  /** Text without '<' is kept as it is, whatever follows it. */
  lemma {:induction false} PlainPrefix(x: string, y: string)
    requires '<' !in x
    ensures StripTags(x + y) == x + StripTags(y)
    decreases |x|
  {
    if |x| > 0 {
      assert x == [x[0]] + x[1..];
      assert (x + y)[1..] == x[1..] + y;
      PlainPrefix(x[1..], y);
    } else {
      assert x + y == y;
    }
  }

  /** A tag is deleted with nothing put in its place. */
  lemma TagDeleted(t: string, y: string)
    requires '>' !in t
    ensures StripTags("<" + t + ">" + y) == StripTags(y)
  {
    var s := "<" + t + ">" + y;
    assert s[1..] == t + ">" + y;
    assert IndexOf(s[1..], '>') == |t| by {
      assert (t + ">" + y)[|t|] == '>';
      assert forall i :: 0 <= i < |t| ==> (t + ">" + y)[i] == t[i];
    }
    assert s[|t| + 2..] == y;
  }

  /** A piece of markup: a tag `<inner>` or a piece of text. */
  datatype Chunk = Tag(inner: string) | Text(text: string)

  /** The markup the chunks spell. */
  function Render(cs: seq<Chunk>): string
  {
    if |cs| == 0 then ""
    else
      match cs[0]
      case Tag(t) => "<" + t + ">" + Render(cs[1..])
      case Text(x) => x + Render(cs[1..])
  }

  /** The text chunks alone, in order. */
  function TextOf(cs: seq<Chunk>): string
  {
    if |cs| == 0 then ""
    else
      match cs[0]
      case Tag(_) => TextOf(cs[1..])
      case Text(x) => x + TextOf(cs[1..])
  }

  /** No tag holds a '>' and no text holds a '<'. */
  predicate WellFormed(cs: seq<Chunk>)
  {
    forall i :: 0 <= i < |cs| ==> match cs[i]
      case Tag(t) => '>' !in t
      case Text(x) => '<' !in x
  }

  /** On well-formed markup, stripping the tags leaves exactly the text. */
  lemma {:induction false} StripTagsKeepsText(cs: seq<Chunk>)
    requires WellFormed(cs)
    ensures StripTags(Render(cs)) == TextOf(cs)
  {
    if |cs| > 0 {
      assert WellFormed(cs[1..]) by {
        forall i | 0 <= i < |cs| - 1
          ensures match cs[1..][i] case Tag(t) => '>' !in t case Text(x) => '<' !in x
        {
          assert cs[1..][i] == cs[i + 1];
        }
      }
      StripTagsKeepsText(cs[1..]);
      match cs[0]
      case Tag(t) =>
        assert 0 <= 0 < |cs|;
        TagDeleted(t, Render(cs[1..]));
      case Text(x) =>
        assert 0 <= 0 < |cs|;
        PlainPrefix(x, Render(cs[1..]));
    }
  }

  // ---------------------------------------------------------------------
  // .replace(/\s+/g, ' ') and .trim()
  // ---------------------------------------------------------------------

  /**
   * Replaces each maximal run of whitespace with one space: the result has
   * no whitespace but single spaces, and keeps whether it starts with whitespace.
   */
  function Collapse(s: string): (r: string)
    ensures |r| <= |s|
    ensures |s| > 0 ==> |r| > 0 && (IsSpace(r[0]) <==> IsSpace(s[0]))
    ensures forall i :: 0 <= i < |r| && IsSpace(r[i]) ==> r[i] == ' '
    ensures forall i :: 0 <= i < |r| - 1 ==> !(IsSpace(r[i]) && IsSpace(r[i + 1]))
    decreases |s|
  {
    if |s| == 0 then ""
    else if IsSpace(s[0]) then " " + Collapse(s[SpaceRun(s)..])
    else [s[0]] + Collapse(s[1..])
  }

  /** Collapsing whitespace keeps the words. */
  lemma {:induction false} CollapseKeepsWords(s: string, boundary: bool)
    ensures WordsAfter(Collapse(s), boundary) == WordsAfter(s, boundary)
    decreases |s|
  {
    if |s| == 0 {
    } else if IsSpace(s[0]) {
      var rest := s[SpaceRun(s)..];
      CollapseKeepsWords(rest, true);
      SkipSpaces(s, boundary);
      assert (" " + Collapse(rest))[1..] == Collapse(rest);
    } else {
      CollapseKeepsWords(s[1..], false);
      assert ([s[0]] + Collapse(s[1..]))[1..] == Collapse(s[1..]);
    }
  }

  /** Leading whitespace removed. */
  function TrimStart(s: string): (r: string)
    ensures |r| > 0 ==> !IsSpace(r[0])
  {
    s[SpaceRun(s)..]
  }

  /** Trailing whitespace removed: what is left is a prefix of `s`. */
  function TrimEnd(s: string): (r: string)
    ensures |r| <= |s| && r == s[..|r|]
    ensures forall i :: |r| <= i < |s| ==> IsSpace(s[i])
    ensures |r| > 0 ==> !IsSpace(r[|r| - 1])
  {
    if |s| > 0 && IsSpace(s[|s| - 1]) then TrimEnd(s[..|s| - 1]) else s
  }

  /** `trim()`: empty exactly when `s` is whitespace only; otherwise neither end is whitespace. */
  function Trim(s: string): (r: string)
    ensures |r| == 0 <==> forall i :: 0 <= i < |s| ==> IsSpace(s[i])
    ensures |r| > 0 ==> !IsSpace(r[0]) && !IsSpace(r[|r| - 1])
  {
    var t := TrimStart(s);
    assert forall i :: SpaceRun(s) <= i < |s| ==> s[i] == t[i - SpaceRun(s)];
    TrimEnd(t)
  }

  /** Trimming keeps the words. */
  lemma TrimKeepsWords(s: string)
    ensures Words(Trim(s)) == Words(s)
  {
    if SpaceRun(s) > 0 {
      SkipSpaces(s, true);
    }
    TrimEndKeepsWords(TrimStart(s), true);
  }

  lemma {:induction false} TrimEndKeepsWords(s: string, boundary: bool)
    ensures WordsAfter(TrimEnd(s), boundary) == WordsAfter(s, boundary)
    decreases |s|
  {
    if |s| > 0 && IsSpace(s[|s| - 1]) {
      DropTrailingSpace(s, boundary);
      TrimEndKeepsWords(s[..|s| - 1], boundary);
    }
  }

  // ---------------------------------------------------------------------
  // .split(/\s+/).filter(word => word.length > 0).length
  // ---------------------------------------------------------------------

  /**
   * `split(/\s+/)`: the pieces between maximal runs of whitespace, in order.
   * Whitespace at either end gives an empty first or last piece, and the
   * empty string gives one empty piece.
   */
  function Split(s: string): (parts: seq<string>)
    ensures |parts| >= 1
    decreases |s|
  {
    if FirstSpace(s) == |s| then [s] else [Token(s)] + Split(Rest(s))
  }

  /** The first piece of a split: everything before the first whitespace. */
  function Token(s: string): (t: string)
    ensures |t| == FirstSpace(s)
  {
    s[..FirstSpace(s)]
  }

  /** What a split goes on with: the text after the first whitespace run. */
  function Rest(s: string): (r: string)
    requires FirstSpace(s) < |s|
    ensures |r| < |s|
  {
    s[FirstSpace(s) + SpaceRun(s[FirstSpace(s)..])..]
  }

  /** `filter(word => word.length > 0).length`. */
  function CountNonEmpty(parts: seq<string>): (n: nat)
    ensures n <= |parts|
  {
    if |parts| == 0 then 0
    else (if |parts[0]| > 0 then 1 else 0) + CountNonEmpty(parts[1..])
  }

  /** The non-empty pieces of a split are exactly the words. */
  lemma {:induction false} SplitCountsWords(s: string)
    ensures CountNonEmpty(Split(s)) == Words(s)
    decreases |s|
  {
    var i := FirstSpace(s);
    if i == |s| {
      SplitOneWord(s);
    } else {
      SplitStep(s);
      WordsStep(s, i, SpaceRun(s[i..]));
      SplitCountsWords(Rest(s));
    }
  }

  /** Text without whitespace is one piece and at most one word. */
  lemma SplitOneWord(s: string)
    requires FirstSpace(s) == |s|
    ensures CountNonEmpty(Split(s)) == Words(s)
  {
    SkipWord(s, true);
    CountNonEmptyCons(s, []);
    assert [s] + [] == [s];
    assert s[|s|..] == "";
  }

  /** The first piece of a split counts exactly when it is not empty. */
  lemma SplitStep(s: string)
    requires FirstSpace(s) < |s|
    ensures CountNonEmpty(Split(s)) == (if FirstSpace(s) > 0 then 1 else 0) + CountNonEmpty(Split(Rest(s)))
  {
    CountNonEmptyCons(Token(s), Split(Rest(s)));
  }

  /** A word and the whitespace after it: one word, when the word is not empty. */
  lemma WordsStep(s: string, i: nat, k: nat)
    requires i == FirstSpace(s) < |s| && k == SpaceRun(s[i..])
    ensures Words(s) == (if i > 0 then 1 else 0) + Words(s[i + k..])
  {
    var t := s[i..];
    var before := WordsAfter(t, i == 0);
    var after := WordsAfter(t[k..], true);
    assert Words(s) == (if i > 0 then 1 else 0) + before by {
      SkipWord(s, true);
    }
    assert before == after by {
      assert t[0] == s[i];
      SkipSpaces(t, i == 0);
    }
    assert after == Words(s[i + k..]) by {
      assert t[k..] == s[i + k..];
    }
  }

  lemma CountNonEmptyCons(p: string, ps: seq<string>)
    ensures CountNonEmpty([p] + ps) == (if |p| > 0 then 1 else 0) + CountNonEmpty(ps)
  {
    assert ([p] + ps)[1..] == ps;
  }

  /** The word count of calculateReadingTime is the number of words of the tag-stripped text. */
  lemma WordCountIsWords(text: string)
    ensures CountNonEmpty(Split(Trim(Collapse(StripTags(text))))) == Words(StripTags(text))
  {
    var plain := StripTags(text);
    SplitCountsWords(Trim(Collapse(plain)));
    TrimKeepsWords(Collapse(plain));
    CollapseKeepsWords(plain, true);
  }

  /** Text made of whitespace only has no tag and no word. */
  lemma {:induction false} BlankHasNoWords(s: string, boundary: bool)
    requires forall i :: 0 <= i < |s| ==> IsSpace(s[i])
    ensures StripTags(s) == s
    ensures WordsAfter(s, boundary) == 0
    decreases |s|
  {
    if |s| > 0 {
      BlankHasNoWords(s[1..], true);
      assert [s[0]] + s[1..] == s;
    }
  }

  // ---------------------------------------------------------------------
  // calculateReadingTime and formatReadingTime
  // ---------------------------------------------------------------------

  /**
   * Whole minutes for a word count: 0 below the minimum, otherwise the
   * count divided by the reading speed, rounded up, and at least 1.
   */
  function MinutesFor(words: nat): (minutes: nat)
    ensures minutes == 0 <==> words < MinWordCount
    ensures minutes > 0 ==> (minutes - 1) * WordsPerMinute < words <= minutes * WordsPerMinute
  {
    if words < MinWordCount then 0 else Max(1, (words + WordsPerMinute - 1) / WordsPerMinute)
  }

  /** `Math.max` on integers. */
  function Max(a: int, b: int): (m: int)
    ensures m >= a && m >= b && (m == a || m == b)
  {
    if a < b then b else a
  }

  /** More words never mean fewer minutes. */
  lemma MinutesMonotone(a: nat, b: nat)
    requires a <= b
    ensures MinutesFor(a) <= MinutesFor(b)
  {
  }

  /**
   * `calculateReadingTime`: empty or whitespace-only text reads in 0
   * minutes; otherwise the words of the tag-stripped text decide.
   */
  function CalculateReadingTime(text: string): (minutes: nat)
    ensures minutes == MinutesFor(Words(StripTags(text)))
  {
    if |text| == 0 || |Trim(text)| == 0 then
      BlankHasNoWords(text, true);
      0
    else
      var plainText := Trim(Collapse(StripTags(text)));
      var wordCount := CountNonEmpty(Split(plainText));
      WordCountIsWords(text);
      MinutesFor(wordCount)
  }

  /**
   * A tag is not a word break: two runs of non-whitespace with a tag between
   * them, as in "a<br>b", make one word.
   */
  lemma TagJoinsWords(a: string, t: string, b: string)
    requires |a| > 0 && '<' !in a && '<' !in b && '>' !in t
    requires forall i :: 0 <= i < |a| ==> !IsSpace(a[i])
    requires forall i :: 0 <= i < |b| ==> !IsSpace(b[i])
    ensures StripTags(a + ("<" + t + ">" + b)) == a + b
    ensures Words(StripTags(a + ("<" + t + ">" + b))) == 1
  {
    assert StripTags(a + ("<" + t + ">" + b)) == a + b by {
      PlainPrefix(a, "<" + t + ">" + b);
      TagDeleted(t, b);
      PlainPrefix(b, "");
      assert b + "" == b;
    }
    OneWord(a + b);
  }

  /** Non-empty text without whitespace is one word. */
  lemma OneWord(w: string)
    requires |w| > 0
    requires forall i :: 0 <= i < |w| ==> !IsSpace(w[i])
    ensures Words(w) == 1
  {
    SkipWord(w, true);
    assert w[|w|..] == "";
  }

  /** Markup whose text is whitespace only, or empty, reads in 0 minutes. */
  lemma BlankMarkupReadsZero(cs: seq<Chunk>)
    requires WellFormed(cs)
    requires forall i :: 0 <= i < |TextOf(cs)| ==> IsSpace(TextOf(cs)[i])
    ensures CalculateReadingTime(Render(cs)) == 0
  {
    StripTagsKeepsText(cs);
    BlankHasNoWords(TextOf(cs), true);
  }

  /** The character for a digit. */
  function DigitChar(d: nat): (c: char)
    requires d < 10
    ensures '0' <= c <= '9'
  {
    (d + '0' as int) as char
  }

  /** The decimal numeral of `n`: digits only, no leading zero, "0" for zero. */
  function DecimalString(n: nat): (s: string)
    ensures |s| >= 1
    ensures forall i :: 0 <= i < |s| ==> '0' <= s[i] <= '9'
    ensures |s| > 1 ==> s[0] != '0'
  {
    if n < 10 then [DigitChar(n)] else DecimalString(n / 10) + [DigitChar(n % 10)]
  }

  /** The value of a string of decimal digits. */
  function DecimalValue(s: string): nat
    requires forall i :: 0 <= i < |s| ==> '0' <= s[i] <= '9'
  {
    if |s| == 0 then 0 else 10 * DecimalValue(s[..|s| - 1]) + (s[|s| - 1] as int - '0' as int)
  }

  /** The numeral reads back as the number. */
  lemma {:induction false} DecimalRoundTrip(n: nat)
    ensures DecimalValue(DecimalString(n)) == n
  {
    if n >= 10 {
      DecimalRoundTrip(n / 10);
      var s := DecimalString(n);
      assert s[..|s| - 1] == DecimalString(n / 10);
    }
  }

  /** JavaScript's string form of an integer: a minus sign before the numeral of a negative one. */
  function IntegerString(m: int): string
  {
    if m < 0 then "-" + DecimalString(-m) else DecimalString(m)
  }

  /** `formatReadingTime`: "" for 0 minutes, otherwise the minutes followed by " min read". */
  function FormatReadingTime(minutes: int): (s: string)
    ensures s == "" <==> minutes == 0
  {
    if minutes == 0 then "" else IntegerString(minutes) + " min read"
  }

  /** A formatted reading time ends in " min read" and its number reads back as the minutes. */
  lemma FormatReadsBack(minutes: int)
    requires minutes != 0
    ensures var s := FormatReadingTime(minutes);
      && |s| > 9 && s[|s| - 9..] == " min read"
      && var number := s[..|s| - 9];
         if minutes < 0 then number[0] == '-' && DecimalValue(number[1..]) == -minutes
         else DecimalValue(number) == minutes
  {
    var s := FormatReadingTime(minutes);
    var number := IntegerString(minutes);
    assert s[..|s| - 9] == number;
    if minutes < 0 {
      DecimalRoundTrip(-minutes);
      assert number[1..] == DecimalString(-minutes);
    } else {
      DecimalRoundTrip(minutes);
    }
  }

  /** One minute reads "1 min read". */
  lemma OneMinute()
    ensures FormatReadingTime(1) == "1 min read"
  {
    assert DecimalString(1) == "1";
  }
}
