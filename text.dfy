/**
 * The string primitives the parsers are built from, with the meaning they have in
 * JavaScript: the `\s` character class and `trim`, `\d`, the characters `.` does not
 * match, `split('\n')`, the two `replace` calls that clean pasted text, case-insensitive
 * matching of the Cyrillic keywords, and the decimal text of numbers.
 */
module Text {

  /** JavaScript WhiteSpace and LineTerminator: what `\s` matches and `trim` removes. */
  predicate IsSpace(c: char) {
    c == '\t' || c == '\n' || c == '\U{000B}' || c == '\U{000C}' || c == '\r' || c == ' '
    || c == '\U{00A0}' || c == '\U{1680}' || ('\U{2000}' <= c <= '\U{200A}')
    || c == '\U{2028}' || c == '\U{2029}' || c == '\U{202F}' || c == '\U{205F}'
    || c == '\U{3000}' || c == '\U{FEFF}'
  }

  /** The characters that `.` does not match when a pattern has no `s` flag. */
  predicate IsLineTerminator(c: char) {
    c == '\n' || c == '\r' || c == '\U{2028}' || c == '\U{2029}'
  }

  /** `\d`: ASCII decimal digits only. */
  predicate IsDigit(c: char) {
    '0' <= c <= '9'
  }

  /** A digit of base 16, either case. */
  predicate IsHexDigit(c: char) {
    IsDigit(c) || 'a' <= c <= 'f' || 'A' <= c <= 'F'
  }

  predicate AllDigits(s: string) {
    forall i :: 0 <= i < |s| ==> IsDigit(s[i])
  }

  predicate NoLineTerminator(s: string) {
    forall i :: 0 <= i < |s| ==> !IsLineTerminator(s[i])
  }

  /** The character classes whose maximal runs the patterns consume. */
  datatype CharClass = Spaces | Digits | NonTerminators | DigitsOrHyphens | LineFeeds | HexDigits

  predicate InClass(k: CharClass, c: char) {
    match k
    case Spaces => IsSpace(c)
    case Digits => IsDigit(c)
    case NonTerminators => !IsLineTerminator(c)
    case DigitsOrHyphens => IsDigit(c) || c == '-'
    case LineFeeds => c == '\n'
    case HexDigits => IsHexDigit(c)
  }

  /** End of the maximal run of class `k` that starts at `from`. */
  function RunEnd(s: string, from: nat, k: CharClass): (e: nat)
    requires from <= |s|
    ensures from <= e <= |s|
    ensures forall i {:trigger InClass(k, s[i])} :: from <= i < e ==> InClass(k, s[i])
    ensures e < |s| ==> !InClass(k, s[e])
    decreases |s| - from
  {
    if from < |s| && InClass(k, s[from]) then RunEnd(s, from + 1, k) else from
  }

  /** First position at or after `from` holding a character of class `k`, or |s|. */
  function FirstIn(s: string, from: nat, k: CharClass): (q: nat)
    requires from <= |s|
    ensures from <= q <= |s|
    ensures forall i {:trigger InClass(k, s[i])} :: from <= i < q ==> !InClass(k, s[i])
    ensures q < |s| ==> InClass(k, s[q])
    decreases |s| - from
  {
    if from < |s| && !InClass(k, s[from]) then FirstIn(s, from + 1, k) else from
  }

  /** Start of the maximal run of spaces that ends at `stop`. */
  function SpaceStartBefore(s: string, stop: nat): (b: nat)
    requires stop <= |s|
    ensures b <= stop
    ensures forall i {:trigger IsSpace(s[i])} :: b <= i < stop ==> IsSpace(s[i])
    ensures b > 0 ==> !IsSpace(s[b - 1])
    decreases stop
  {
    if stop > 0 && IsSpace(s[stop - 1]) then SpaceStartBefore(s, stop - 1) else stop
  }

  /** `String.prototype.trim`. */
  function Trim(s: string): (r: string)
    ensures |r| > 0 ==> !IsSpace(r[0]) && !IsSpace(r[|r| - 1])
    ensures RunEnd(s, 0, Spaces) + |r| <= |s|
    ensures r == s[RunEnd(s, 0, Spaces)..RunEnd(s, 0, Spaces) + |r|]
    ensures forall i {:trigger IsSpace(s[i])} :: RunEnd(s, 0, Spaces) + |r| <= i < |s| ==> IsSpace(s[i])
  {
    var a := RunEnd(s, 0, Spaces);
    var t := s[a..];
    var b := SpaceStartBefore(t, |t|);
    assert |t[..b]| > 0 ==> t[..b][0] == s[a];
    t[..b]
  }

  /** Trimming twice is trimming once. */
  lemma TrimIdempotent(s: string)
    ensures Trim(Trim(s)) == Trim(s)
  {
    var r := Trim(s);
    TrimOfTrimmed(r);
  }

  /** A string without leading or trailing space is its own trim. */
  lemma TrimOfTrimmed(r: string)
    requires |r| > 0 ==> !IsSpace(r[0]) && !IsSpace(r[|r| - 1])
    ensures Trim(r) == r
  {
    if |r| > 0 {
      assert RunEnd(r, 0, Spaces) == 0;
      assert r[0..] == r;
      assert SpaceStartBefore(r, |r|) == |r|;
    }
  }

  /** First index at or after `from` holding `c`, or |s|. */
  function IndexOf(s: string, c: char, from: nat): (i: nat)
    requires from <= |s|
    ensures from <= i <= |s|
    ensures forall j :: from <= j < i ==> s[j] != c
    ensures i < |s| ==> s[i] == c
    decreases |s| - from
  {
    if from < |s| && s[from] != c then IndexOf(s, c, from + 1) else from
  }

  /** Pieces joined back with the separator between them. */
  function Join(parts: seq<string>, sep: char): string
    decreases |parts|
  {
    if |parts| == 0 then ""
    else if |parts| == 1 then parts[0]
    else parts[0] + [sep] + Join(parts[1..], sep)
  }

  /** `s.split(sep)` for a one-character separator: always at least one piece. */
  function Split(s: string, sep: char): (parts: seq<string>)
    ensures |parts| >= 1
    ensures forall i :: 0 <= i < |parts| ==> sep !in parts[i]
    ensures Join(parts, sep) == s
    decreases |s|
  {
    var i := IndexOf(s, sep, 0);
    if i == |s| then
      [s]
    else
      var rest := Split(s[i + 1..], sep);
      assert s == s[..i] + [sep] + s[i + 1..];
      [s[..i]] + rest
  }

  /** Split is the inverse of Join on pieces that do not contain the separator. */
  lemma {:induction false} SplitJoin(parts: seq<string>, sep: char)
    requires |parts| >= 1
    requires forall i :: 0 <= i < |parts| ==> sep !in parts[i]
    ensures Split(Join(parts, sep), sep) == parts
    decreases |parts|
  {
    var s := Join(parts, sep);
    if |parts| == 1 {
      assert forall j :: 0 <= j < |s| ==> s[j] != sep;
    } else {
      var p0 := parts[0];
      var tail := Join(parts[1..], sep);
      assert s == p0 + [sep] + tail;
      var i := IndexOf(s, sep, 0);
      assert s[|p0|] == sep;
      assert forall j :: 0 <= j < |p0| ==> s[j] == p0[j] && s[j] != sep;
      assert i == |p0|;
      assert s[..i] == p0;
      assert s[i + 1..] == tail;
      assert forall j :: 0 <= j < |parts[1..]| ==> sep !in parts[1..][j] by {
        forall j | 0 <= j < |parts[1..]| ensures sep !in parts[1..][j] {
          assert parts[1..][j] == parts[j + 1];
        }
      }
      SplitJoin(parts[1..], sep);
      assert [p0] + parts[1..] == parts;
    }
  }

  /** Two lines joined by a line feed split back into the two lines. */
  lemma SplitTwoLines(a: string, b: string)
    requires '\n' !in a && '\n' !in b
    ensures Split(a + "\n" + b, '\n') == [a, b]
  {
    assert Join([a, b], '\n') == a + "\n" + b by {
      assert [a, b][1..] == [b];
    }
    SplitJoin([a, b], '\n');
  }

  /** `.replace(/\r\n/g, '\n')`, scanning left to right. */
  function ReplaceCrLf(s: string): (r: string)
    ensures |r| <= |s|
    decreases |s|
  {
    if |s| == 0 then ""
    else if |s| >= 2 && s[0] == '\r' && s[1] == '\n' then "\n" + ReplaceCrLf(s[2..])
    else [s[0]] + ReplaceCrLf(s[1..])
  }

  /** The same text with every line ending written as CR LF. */
  function WithCrLf(t: string): (r: string)
    ensures |r| == 0 <==> |t| == 0
    ensures |r| > 0 ==> r[0] != '\n'
    decreases |t|
  {
    if |t| == 0 then ""
    else (if t[0] == '\n' then "\r\n" else [t[0]]) + WithCrLf(t[1..])
  }

  /** Line-ending normalisation undoes writing the line endings as CR LF. */
  lemma {:induction false} CrLfRoundTrip(t: string)
    ensures ReplaceCrLf(WithCrLf(t)) == t
    decreases |t|
  {
    if |t| > 0 {
      CrLfRoundTrip(t[1..]);
      var w := WithCrLf(t[1..]);
      if t[0] == '\n' {
        assert WithCrLf(t) == "\r\n" + w;
        assert ("\r\n" + w)[2..] == w;
      } else {
        assert WithCrLf(t) == [t[0]] + w;
        assert ([t[0]] + w)[1..] == w;
      }
      assert t == [t[0]] + t[1..];
    }
  }

  /** Text without carriage returns is left alone by line-ending normalisation. */
  lemma {:induction false} ReplaceCrLfWithoutCr(t: string)
    requires '\r' !in t
    ensures ReplaceCrLf(t) == t
    decreases |t|
  {
    if |t| > 0 {
      assert t[0] != '\r';
      assert forall j :: 0 <= j < |t[1..]| ==> t[1..][j] == t[j + 1] && t[j + 1] != '\r';
      ReplaceCrLfWithoutCr(t[1..]);
      assert t == [t[0]] + t[1..];
    }
  }

  predicate NoTripleLineFeed(s: string) {
    forall i :: 0 <= i < |s| - 2 ==> !(s[i] == '\n' && s[i + 1] == '\n' && s[i + 2] == '\n')
  }

  /** `.replace(/\n{3,}/g, '\n\n')`: each maximal run of three or more LFs becomes two. */
  function CollapseBlankLines(s: string): (r: string)
    ensures |r| <= |s|
    ensures |r| > 0 <==> |s| > 0
    ensures |r| > 0 ==> (r[0] == '\n' <==> s[0] == '\n')
    decreases |s|
  {
    if |s| == 0 then ""
    else if s[0] == '\n' then
      var k := RunEnd(s, 0, LineFeeds);
      (if k >= 3 then "\n\n" else s[..k]) + CollapseBlankLines(s[k..])
    else [s[0]] + CollapseBlankLines(s[1..])
  }

  /** At most two characters before a text that has no triple and does not open with a line feed. */
  lemma NoTriplePrefix(a: string, b: string)
    requires |a| <= 2 && NoTripleLineFeed(b) && (|b| > 0 ==> b[0] != '\n')
    ensures NoTripleLineFeed(a + b)
  {
    var r := a + b;
    forall i | 0 <= i < |r| - 2
      ensures !(r[i] == '\n' && r[i + 1] == '\n' && r[i + 2] == '\n')
    {
      if i >= |a| {
        assert r[i] == b[i - |a|] && r[i + 1] == b[i + 1 - |a|] && r[i + 2] == b[i + 2 - |a|];
      } else if i + 1 == |a| {
        assert r[i + 1] == b[0];
      } else {
        assert r[i + 2] == b[0];
      }
    }
  }

  /** A character other than a line feed before a text that has no triple. */
  lemma NoTripleCons(c: char, b: string)
    requires c != '\n' && NoTripleLineFeed(b)
    ensures NoTripleLineFeed([c] + b)
  {
    var r := [c] + b;
    forall i | 0 < i < |r| - 2
      ensures !(r[i] == '\n' && r[i + 1] == '\n' && r[i + 2] == '\n')
    {
      assert r[i] == b[i - 1] && r[i + 1] == b[i] && r[i + 2] == b[i + 1];
    }
  }

  /** After collapsing, no three line feeds are adjacent. */
  lemma {:induction false} CollapseLeavesNoTriple(s: string)
    ensures NoTripleLineFeed(CollapseBlankLines(s))
    decreases |s|
  {
    if |s| > 0 {
      if s[0] == '\n' {
        var k := RunEnd(s, 0, LineFeeds);
        CollapseLeavesNoTriple(s[k..]);
        NoTriplePrefix(if k >= 3 then "\n\n" else s[..k], CollapseBlankLines(s[k..]));
      } else {
        CollapseLeavesNoTriple(s[1..]);
        NoTripleCons(s[0], CollapseBlankLines(s[1..]));
      }
    }
  }

  /**
   * The three cleaning steps both parsers apply before looking for markers: the cleaned
   * text has no three adjacent line feeds and neither of its ends is white space.
   */
  function CleanText(text: string): (r: string)
    ensures NoTripleLineFeed(r)
    ensures |r| > 0 ==> !IsSpace(r[0]) && !IsSpace(r[|r| - 1])
  {
    var c := CollapseBlankLines(ReplaceCrLf(text));
    CollapseLeavesNoTriple(ReplaceCrLf(text));
    NoTripleSlice(c, RunEnd(c, 0, Spaces), RunEnd(c, 0, Spaces) + |Trim(c)|);
    Trim(c)
  }

  /** A slice of a text without triples has none. */
  lemma NoTripleSlice(c: string, a: nat, b: nat)
    requires a <= b <= |c| && NoTripleLineFeed(c)
    ensures NoTripleLineFeed(c[a..b])
  {
    var r := c[a..b];
    forall i | 0 <= i < |r| - 2
      ensures !(r[i] == '\n' && r[i + 1] == '\n' && r[i + 2] == '\n')
    {
      assert r[i] == c[a + i] && r[i + 1] == c[a + i + 1] && r[i + 2] == c[a + i + 2];
    }
  }

  /** Writing the line endings of LF text as CR LF does not change the cleaned text. */
  lemma CleanTextIgnoresCrLf(t: string)
    requires '\r' !in t
    ensures CleanText(WithCrLf(t)) == CleanText(t)
  {
    CrLfRoundTrip(t);
    ReplaceCrLfWithoutCr(t);
  }

  /** In "a\r\r\nb" only the second CR starts a CR LF pair. */
  lemma ReplaceCrLfKeepsLoneCr()
    ensures ReplaceCrLf("a\r\r\nb") == "a\r\nb"
  {
    var s := "a\r\r\nb";
    assert s[1..] == "\r\r\nb" && s[1..][1..] == "\r\nb" && s[1..][1..][2..] == "b";
    assert ReplaceCrLf("b") == "b";
    assert ReplaceCrLf("\r\nb") == "\nb";
    assert ReplaceCrLf("\r\r\nb") == "\r\nb";
  }

  lemma ReplaceCrLfOnePair()
    ensures ReplaceCrLf("a\r\nb") == "a\nb"
  {
    var s := "a\r\nb";
    assert s[1..] == "\r\nb" && s[1..][2..] == "b";
    assert ReplaceCrLf("b") == "b";
    assert ReplaceCrLf("\r\nb") == "\nb";
  }

  /** A single line feed is not a run to collapse. */
  lemma CollapseSingleLineFeed(c: char)
    requires c != '\n'
    ensures CollapseBlankLines(['\n', c]) == ['\n', c]
  {
    var s := ['\n', c];
    assert RunEnd(s, 0, LineFeeds) == 1;
    assert s[1..] == [c] && [c][1..] == [];
    assert CollapseBlankLines([c]) == [c];
  }

  lemma CollapseKeepsCrLf()
    ensures CollapseBlankLines("a\r\nb") == "a\r\nb"
  {
    var s := "a\r\nb";
    assert s[1..] == "\r\nb" && s[1..][1..] == "\nb";
    CollapseSingleLineFeed('b');
    assert CollapseBlankLines("\r\nb") == "\r\nb";
  }

  lemma CollapseKeepsLineFeed()
    ensures CollapseBlankLines("a\nb") == "a\nb"
  {
    var s := "a\nb";
    assert s[1..] == "\nb";
    CollapseSingleLineFeed('b');
  }

  /** The first pass replaces the one CR LF pair of "a\r\r\nb" and keeps the lone CR before it. */
  lemma CleanTextFirstPass()
    ensures CleanText("a\r\r\nb") == "a\r\nb"
  {
    ReplaceCrLfKeepsLoneCr();
    CollapseKeepsCrLf();
    TrimOfTrimmed("a\r\nb");
  }

  /** The second pass finds the CR LF pair the first one left. */
  lemma CleanTextSecondPass()
    ensures CleanText("a\r\nb") == "a\nb"
  {
    ReplaceCrLfOnePair();
    CollapseKeepsLineFeed();
    TrimOfTrimmed("a\nb");
  }

  /**
   * Cleaning is not idempotent: a carriage return left in front of a CR LF pair by the
   * first pass forms a new pair for the second.
   */
  lemma CleanTextNotIdempotent()
    ensures CleanText(CleanText("a\r\r\nb")) != CleanText("a\r\r\nb")
  {
    CleanTextFirstPass();
    CleanTextSecondPass();
    assert "a\nb"[1] != "a\r\nb"[1];
  }

  /**
   * Simple case folding for the `i` flag without `u`: upper-case Cyrillic (А-Я, Ѐ-Џ),
   * upper-case Latin and the Cyrillic variant letters U+1C80..U+1C88 map to the lower-case
   * letter whose upper case they share; every other character folds to itself.
   */
  function Fold(c: char): char {
    if 'А' <= c <= 'Я' then (c as int + 0x20) as char
    else if 'Ѐ' <= c <= 'Џ' then (c as int + 0x50) as char
    else if 'A' <= c <= 'Z' then (c as int + 0x20) as char
    else if c == '\U{1C80}' then 'в'
    else if c == '\U{1C81}' then 'д'
    else if c == '\U{1C82}' then 'о'
    else if c == '\U{1C83}' then 'с'
    else if c == '\U{1C84}' || c == '\U{1C85}' then 'т'
    else if c == '\U{1C86}' then 'ъ'
    else if c == '\U{1C87}' then 'ѣ'
    else if c == '\U{1C88}' then '\U{A64B}'
    else c
  }

  function Lower(t: string): (r: string)
    ensures |r| == |t|
    ensures forall i {:trigger r[i]} :: 0 <= i < |t| ==> r[i] == Fold(t[i])
  {
    seq(|t|, i requires 0 <= i < |t| => Fold(t[i]))
  }

  /** A folded character folds to itself. */
  lemma FoldIdempotent(c: char)
    ensures Fold(Fold(c)) == Fold(c)
  {
  }

  /** Folding a folded text changes nothing: a folded keyword is its own lower case. */
  lemma LowerIdempotent(t: string)
    ensures Lower(Lower(t)) == Lower(t)
  {
    forall i | 0 <= i < |t| ensures Lower(Lower(t))[i] == Lower(t)[i] {
      FoldIdempotent(t[i]);
    }
  }

  /** Case-insensitive occurrence of the lower-case keyword `kw` at position `p`. */
  predicate MatchesAt(s: string, p: nat, kw: string) {
    p + |kw| <= |s| && Lower(s[p..p + |kw|]) == kw
  }

  /** A character that folds to a Cyrillic lower-case letter is a letter itself. */
  lemma CyrillicIsNotPlain(c: char)
    requires 'а' <= Fold(c) <= 'џ'
    ensures !IsSpace(c) && !IsDigit(c) && !IsLineTerminator(c)
    ensures c != '-' && c != '.' && c != '/'
  {
  }

  /** Each character of a match folds to the keyword's letter at the same offset. */
  lemma FoldAt(s: string, p: nat, kw: string, i: nat)
    requires i < |kw|
    ensures MatchesAt(s, p, kw) ==> Fold(s[p + i]) == kw[i]
  {
    if MatchesAt(s, p, kw) {
      assert Lower(s[p..p + |kw|])[i] == Fold(s[p + i]);
    }
  }

  /** A match in `rest` is a match in any text that ends with `rest`. */
  lemma MatchesAtShift(u: string, rest: string, kw: string)
    requires MatchesAt(rest, 0, kw)
    ensures MatchesAt(u + rest, |u|, kw)
  {
    assert (u + rest)[|u|..|u| + |kw|] == rest[0..|kw|];
  }

  /** `/kw/i.test(s)` for a lower-case keyword. */
  predicate ContainsFolded(s: string, kw: string) {
    exists p :: 0 <= p <= |s| && MatchesAt(s, p, kw)
  }

  /** Exact occurrence of `t` at position `p`. */
  predicate OccursAt(s: string, p: nat, t: string) {
    p + |t| <= |s| && s[p..p + |t|] == t
  }

  /** An occurrence in `s` is an occurrence in any text that ends with `s`. */
  lemma OccursAtShift(u: string, s: string, p: nat, t: string)
    requires OccursAt(s, p, t)
    ensures OccursAt(u + s, |u| + p, t)
  {
    assert (u + s)[|u| + p..|u| + p + |t|] == s[p..p + |t|];
  }

  /** `s.includes(t)`. */
  predicate Contains(s: string, t: string) {
    exists p :: 0 <= p <= |s| && OccursAt(s, p, t)
  }

  function DigitValue(c: char): nat {
    if IsDigit(c) then c as int - '0' as int else 0
  }

  /** The number a string of decimal digits denotes (leading zeros allowed). */
  function DigitsValue(s: string): nat
    decreases |s|
  {
    if |s| == 0 then 0 else DigitsValue(s[..|s| - 1]) * 10 + DigitValue(s[|s| - 1])
  }

  /** A single digit reads as its own value. */
  lemma OneDigitValue(c: char)
    ensures DigitsValue([c]) == DigitValue(c)
  {
    assert [c][..0] == [];
  }

  function HexDigitValue(c: char): nat {
    if IsDigit(c) then c as int - '0' as int
    else if 'a' <= c <= 'f' then c as int - 'a' as int + 10
    else if 'A' <= c <= 'F' then c as int - 'A' as int + 10
    else 0
  }

  /** The number a string of base-16 digits denotes. */
  function HexValue(s: string): nat
    decreases |s|
  {
    if |s| == 0 then 0 else HexValue(s[..|s| - 1]) * 16 + HexDigitValue(s[|s| - 1])
  }

  function DigitChar(d: nat): (c: char)
    requires d < 10
    ensures IsDigit(c) && DigitValue(c) == d
  {
    ('0' as int + d) as char
  }

  /** Decimal text of a natural number, as JavaScript writes a non-negative integer. */
  function NatText(n: nat): (r: string)
    ensures |r| > 0 && AllDigits(r)
    ensures DigitsValue(r) == n
    decreases n
  {
    if n < 10 then [DigitChar(n)]
    else
      var r := NatText(n / 10) + [DigitChar(n % 10)];
      assert r[..|r| - 1] == NatText(n / 10);
      r
  }

  /** Decimal text of an integer. */
  function IntText(i: int): string {
    if i < 0 then "-" + NatText(-i) else NatText(i)
  }

  function Pow10(k: nat): (r: nat)
    ensures r > 0
  {
    if k == 0 then 1 else 10 * Pow10(k - 1)
  }

  /** The value of `intPart.fraction` in exact decimal arithmetic. */
  function DecimalValue(intPart: string, fraction: string): real {
    DigitsValue(intPart) as real + DigitsValue(fraction) as real / Pow10(|fraction|) as real
  }
}
