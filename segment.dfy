/**
 * The two marker patterns the parsers cut text with, `/День\s+(\d+)/gi` and the week
 * header `/Тиждень:\s*(\d{1,2})[.\-/](\d{1,2})[.\-/](\d{4})\s*-\s*…/gi`, the global
 * `matchAll` scan that finds them left to right, and the cutting of the text into spans
 * from one marker to the next.
 */
module Segment {
  import opened Wrappers
  import opened Text
  import Calendar

  datatype Marker = DayMarker | WeekHeader

  /** A match: where it starts, where it ends, and the number it carries (day number or week start date). */
  datatype Hit = Hit(start: nat, end: nat, value: int)

  function Keyword(m: Marker): (kw: string)
    ensures |kw| > 0
  {
    match m
    case DayMarker => "день"
    case WeekHeader => "тиждень:"
  }

  /** The folded first letter of the keyword; no later character of a match folds to it. */
  function Lead(m: Marker): char {
    Keyword(m)[0]
  }

  /** Characters that fold to themselves and are neither `д` nor `т`. */
  predicate Plain(c: char) {
    IsSpace(c) || IsDigit(c) || c == '.' || c == '-' || c == '/'
  }

  lemma PlainFoldsToItself(c: char)
    requires Plain(c)
    ensures Fold(c) == c
  {
  }

  predicate PlainRange(s: string, i: nat, j: nat)
    requires i <= j <= |s|
  {
    forall q {:trigger Plain(s[q])} :: i <= q < j ==> Plain(s[q])
  }

  lemma SpaceRunPlain(s: string, from: nat)
    requires from <= |s|
    ensures PlainRange(s, from, RunEnd(s, from, Spaces))
  {
    forall q | from <= q < RunEnd(s, from, Spaces) ensures Plain(s[q]) {
      assert InClass(Spaces, s[q]);
    }
  }

  lemma DigitRunPlain(s: string, from: nat)
    requires from <= |s|
    ensures PlainRange(s, from, RunEnd(s, from, Digits))
  {
    forall q | from <= q < RunEnd(s, from, Digits) ensures Plain(s[q]) {
      assert InClass(Digits, s[q]);
    }
  }

  lemma PlainJoin(s: string, i: nat, j: nat, k: nat)
    requires i <= j <= k <= |s|
    requires PlainRange(s, i, j) && PlainRange(s, j, k)
    ensures PlainRange(s, i, k)
  {
  }

  predicate IsDateSeparator(c: char) {
    c == '.' || c == '-' || c == '/'
  }

  /** `/День\s+(\d+)/i` tried at position `p`: keyword, at least one space, the maximal digit run. */
  function DayMarkerAt(s: string, p: nat): (r: Option<Hit>)
    requires p <= |s|
    ensures r.Some? ==> r.value.start == p && p + 4 < r.value.end <= |s|
    ensures r.Some? ==> MatchesAt(s, p, "день")
    ensures r.Some? ==> PlainRange(s, p + 4, r.value.end)
    ensures r.Some? ==> r.value.end == |s| || !IsDigit(s[r.value.end])
  {
    if !MatchesAt(s, p, "день") then None
    else
      var a := p + 4;
      var b := RunEnd(s, a, Spaces);
      var e := RunEnd(s, b, Digits);
      if b == a || e == b then None
      else
        SpaceRunPlain(s, a);
        DigitRunPlain(s, b);
        PlainJoin(s, a, b, e);
        Some(Hit(p, e, DigitsValue(s[b..e])))
  }

  /**
   * A day marker as a writer types it: the keyword in any case at `p`, spaces up to `b`,
   * digits up to `e`, and no digit after them.
   */
  lemma DayMarkerText(s: string, p: nat, b: nat, e: nat)
    requires p + 4 < b < e <= |s|
    requires MatchesAt(s, p, "день")
    requires forall q :: p + 4 <= q < b ==> IsSpace(s[q])
    requires forall q :: b <= q < e ==> IsDigit(s[q])
    requires e < |s| ==> !IsDigit(s[e])
    ensures DayMarkerAt(s, p) == Some(Hit(p, e, DigitsValue(s[b..e])))
  {
    RunEndIs(s, p + 4, b, Spaces);
    RunEndIs(s, b, e, Digits);
  }

  /** A run of class `k` from `from` to `e` that cannot be extended ends at `e`. */
  lemma RunEndIs(s: string, from: nat, e: nat, k: CharClass)
    requires from <= e <= |s|
    requires forall i :: from <= i < e ==> InClass(k, s[i])
    requires e < |s| ==> !InClass(k, s[e])
    ensures RunEnd(s, from, k) == e
    decreases e - from
  {
    if from < e {
      RunEndIs(s, from + 1, e, k);
    }
  }

  /** A calendar date as written: day, month and four-digit year fields. */
  datatype WrittenDate = WrittenDate(day: nat, month: nat, year: nat)

  /** `(\d{1,2})[.\-/]` at `j`: two digits are tried before one. Gives the value and the index after the separator. */
  function DateField(s: string, j: nat): (r: Option<(nat, nat)>)
    requires j <= |s|
    ensures r.Some? ==> j + 2 <= r.value.1 <= j + 3 && r.value.1 <= |s|
    ensures r.Some? ==> PlainRange(s, j, r.value.1)
    ensures r.Some? ==> AllDigits(s[j..r.value.1 - 1]) && IsDateSeparator(s[r.value.1 - 1])
    ensures r.Some? ==> r.value.0 == DigitsValue(s[j..r.value.1 - 1])
  {
    if j + 2 < |s| && IsDigit(s[j]) && IsDigit(s[j + 1]) && IsDateSeparator(s[j + 2]) then
      Some((DigitsValue(s[j..j + 2]), j + 3))
    else if j + 1 < |s| && IsDigit(s[j]) && IsDateSeparator(s[j + 1]) then
      Some((DigitsValue(s[j..j + 1]), j + 2))
    else None
  }

  /** `(\d{1,2})[.\-/](\d{1,2})[.\-/](\d{4})` at `j`: the date and the index after the year. */
  function DateAt(s: string, j: nat): (r: Option<(WrittenDate, nat)>)
    requires j <= |s|
    ensures r.Some? ==> j + 8 <= r.value.1 <= |s|
    ensures r.Some? ==> PlainRange(s, j, r.value.1)
    ensures r.Some? ==> AllDigits(s[r.value.1 - 4..r.value.1])
    ensures r.Some? ==> r.value.0.year == DigitsValue(s[r.value.1 - 4..r.value.1])
  {
    match DateField(s, j)
    case None => None
    case Some(f1) =>
      match DateField(s, f1.1)
      case None => None
      case Some(f2) =>
        var y := f2.1;
        if y + 4 <= |s| && AllDigits(s[y..y + 4]) then
          assert forall q :: y <= q < y + 4 ==> IsDigit(s[q]) by {
            forall q | y <= q < y + 4 ensures IsDigit(s[q]) {
              assert s[q] == s[y..y + 4][q - y];
            }
          }
          Some((WrittenDate(f1.0, f2.0, DigitsValue(s[y..y + 4])), y + 4))
        else None
  }

  /**
   * A `dd?mm?yyyy` date reads as its three fields whichever of `.`, `-` and `/` the two
   * separators are, so the separators are interchangeable and may be mixed.
   */
  lemma DateAtAnySeparators(s: string, j: nat)
    requires j + 10 <= |s|
    requires IsDigit(s[j]) && IsDigit(s[j + 1]) && IsDateSeparator(s[j + 2])
    requires IsDigit(s[j + 3]) && IsDigit(s[j + 4]) && IsDateSeparator(s[j + 5])
    requires AllDigits(s[j + 6..j + 10])
    ensures DateAt(s, j) == Some((WrittenDate(DigitsValue(s[j..j + 2]), DigitsValue(s[j + 3..j + 5]),
                                              DigitsValue(s[j + 6..j + 10])), j + 10))
  {
    assert DateField(s, j) == Some((DigitsValue(s[j..j + 2]), j + 3));
    assert DateField(s, j + 3) == Some((DigitsValue(s[j + 3..j + 5]), j + 6));
  }

  /** `new Date(year, month - 1, day)` for a written date, as a day number. */
  function StartDate(d: WrittenDate): int {
    Calendar.LocalDate(d.year, d.month - 1, d.day)
  }

  /** `\s*-\s*` at `j`: the index after the dash and the spaces around it. */
  function DashAt(s: string, j: nat): (r: Option<nat>)
    requires j <= |s|
    ensures r.Some? ==> j < r.value <= |s| && PlainRange(s, j, r.value)
  {
    var c := RunEnd(s, j, Spaces);
    if c == |s| || s[c] != '-' then None
    else
      var e := RunEnd(s, c + 1, Spaces);
      SpaceRunPlain(s, j);
      SpaceRunPlain(s, c + 1);
      assert PlainRange(s, c, c + 1);
      PlainJoin(s, j, c, c + 1);
      PlainJoin(s, j, c + 1, e);
      Some(e)
  }

  /**
   * What follows the week keyword, from `b`: a start date, the dash and an end date.
   * Gives the start date and the end of the match.
   */
  function WeekDates(s: string, b: nat): (r: Option<(WrittenDate, nat)>)
    requires b <= |s|
    ensures r.Some? ==> b < r.value.1 <= |s| && PlainRange(s, b, r.value.1)
  {
    match DateAt(s, b)
    case None => None
    case Some(d1) =>
      match DashAt(s, d1.1)
      case None => None
      case Some(e) =>
        match DateAt(s, e)
        case None => None
        case Some(d2) =>
          PlainJoin(s, b, d1.1, e);
          PlainJoin(s, b, e, d2.1);
          Some((d1.0, d2.1))
  }

  /**
   * The week header tried at `p`: the keyword, optional spaces and the two dates. The
   * value is the start date; the end date has to be present but its value is not kept.
   */
  function WeekHeaderAt(s: string, p: nat): (r: Option<Hit>)
    requires p <= |s|
    ensures r.Some? ==> r.value.start == p && p + 8 < r.value.end <= |s|
    ensures r.Some? ==> MatchesAt(s, p, "тиждень:")
    ensures r.Some? ==> PlainRange(s, p + 8, r.value.end)
  {
    if !MatchesAt(s, p, "тиждень:") then None
    else
      var b := RunEnd(s, p + 8, Spaces);
      match WeekDates(s, b)
      case None => None
      case Some(w) =>
        SpaceRunPlain(s, p + 8);
        PlainJoin(s, p + 8, b, w.1);
        Some(Hit(p, w.1, StartDate(w.0)))
  }

  /** The keyword's letters, folded, at the positions a match covers. */
  lemma KeywordFolds(s: string, p: nat, kw: string)
    requires MatchesAt(s, p, kw)
    ensures forall i :: 0 <= i < |kw| ==> Fold(s[p + i]) == kw[i]
  {
    forall i | 0 <= i < |kw| ensures Fold(s[p + i]) == kw[i] {
      assert s[p..p + |kw|][i] == s[p + i];
    }
  }

  /** Inside a match no character folds to the keyword's first letter. */
  lemma NoLeadInside(m: Marker, s: string, p: nat, end: nat)
    requires p + |Keyword(m)| <= end <= |s|
    requires MatchesAt(s, p, Keyword(m))
    requires PlainRange(s, p + |Keyword(m)|, end)
    ensures Fold(s[p]) == Lead(m)
    ensures forall q :: p < q < end ==> Fold(s[q]) != Lead(m)
  {
    var kw := Keyword(m);
    KeywordFolds(s, p, kw);
    assert Fold(s[p + 0]) == kw[0];
    forall q | p < q < end ensures Fold(s[q]) != Lead(m) {
      if q < p + |kw| {
        assert Fold(s[p + (q - p)]) == kw[q - p];
      } else {
        assert Plain(s[q]);
        PlainFoldsToItself(s[q]);
      }
    }
  }

  /** One attempt of the marker's pattern at position `p`. */
  function MarkerAt(m: Marker, s: string, p: nat): (r: Option<Hit>)
    requires p <= |s|
    ensures r.Some? ==> r.value.start == p < r.value.end <= |s|
    ensures r.Some? ==> MatchesAt(s, p, Keyword(m)) && Fold(s[p]) == Lead(m)
    ensures r.Some? ==> forall q :: p < q < r.value.end ==> Fold(s[q]) != Lead(m)
  {
    var r := match m
      case DayMarker => DayMarkerAt(s, p)
      case WeekHeader => WeekHeaderAt(s, p);
    if r.Some? then
      NoLeadInside(m, s, p, r.value.end);
      r
    else r
  }

  /** The outcome of trying the pattern at each position of `s`, as `lastIndex` moves along. */
  function Attempts(m: Marker, s: string): (t: seq<Option<Hit>>)
    ensures |t| == |s| + 1
    ensures forall p :: 0 <= p <= |s| ==> t[p] == MarkerAt(m, s, p)
  {
    seq(|s| + 1, p requires 0 <= p <= |s| => MarkerAt(m, s, p))
  }

  /** Every successful attempt covers a nonempty stretch that starts where it was tried. */
  predicate WellFormed(t: seq<Option<Hit>>) {
    forall p :: 0 <= p < |t| && t[p].Some? ==> t[p].value.start == p < t[p].value.end < |t|
  }

  /** No match can begin strictly inside another. */
  predicate Unnested(t: seq<Option<Hit>>) {
    forall p, q :: 0 <= p < q < |t| && t[p].Some? && q < t[p].value.end ==> t[q].None?
  }

  lemma AttemptsWellFormed(m: Marker, s: string)
    ensures WellFormed(Attempts(m, s))
    ensures Unnested(Attempts(m, s))
  {
    var t := Attempts(m, s);
    forall p, q | 0 <= p < q < |t| && t[p].Some? && q < t[p].value.end
      ensures t[q].None?
    {
      assert Fold(s[q]) != Lead(m);
    }
  }

  /** The first position at or after `from` where the attempt succeeds, or |t|. */
  function FirstHit(t: seq<Option<Hit>>, from: nat): (p: nat)
    requires from <= |t|
    ensures from <= p <= |t|
    ensures p < |t| ==> t[p].Some?
    ensures forall q :: from <= q < p ==> t[q].None?
    decreases |t| - from
  {
    if from == |t| || t[from].Some? then from else FirstHit(t, from + 1)
  }

  /** The global scan: each search resumes where the previous match ended. */
  function Scan(t: seq<Option<Hit>>, from: nat): (hits: seq<Hit>)
    requires WellFormed(t) && from <= |t|
    ensures forall i :: 0 <= i < |hits| ==> from <= hits[i].start < hits[i].end < |t| && t[hits[i].start] == Some(hits[i])
    ensures forall i :: 0 <= i < |hits| - 1 ==> hits[i].end <= hits[i + 1].start
    decreases |t| - from
  {
    var p := FirstHit(t, from);
    if p == |t| then []
    else
      var h := t[p].value;
      [h] + Scan(t, h.end)
  }

  /** The scan misses no match: every successful attempt at or after `from` is found. */
  lemma {:induction false} ScanFindsEvery(t: seq<Option<Hit>>, from: nat, q: nat)
    requires WellFormed(t) && Unnested(t)
    requires from <= q < |t| && t[q].Some?
    ensures exists i :: 0 <= i < |Scan(t, from)| && Scan(t, from)[i].start == q
    decreases |t| - from
  {
    var hits := Scan(t, from);
    var p := FirstHit(t, from);
    assert p <= q;
    var h := t[p].value;
    assert hits[0] == h;
    if p < q {
      assert !(q < h.end);
      ScanFindsEvery(t, h.end, q);
      var rest := Scan(t, h.end);
      var i :| 0 <= i < |rest| && rest[i].start == q;
      assert hits[i + 1] == rest[i];
    }
  }

  /**
   * `[...s.matchAll(re)]` for a global pattern: every result is a match, in increasing
   * order, and matches do not overlap.
   */
  function MatchAll(m: Marker, s: string): (hits: seq<Hit>)
    ensures forall i :: 0 <= i < |hits| ==> hits[i].start < hits[i].end <= |s| && MarkerAt(m, s, hits[i].start) == Some(hits[i])
    ensures forall i :: 0 <= i < |hits| - 1 ==> hits[i].end <= hits[i + 1].start
  {
    AttemptsWellFormed(m, s);
    Scan(Attempts(m, s), 0)
  }

  /** Every position where the pattern matches is the start of one of the results. */
  lemma MatchAllFindsEvery(m: Marker, s: string, p: nat)
    requires p <= |s| && MarkerAt(m, s, p).Some?
    ensures exists i :: 0 <= i < |MatchAll(m, s)| && MatchAll(m, s)[i].start == p
  {
    AttemptsWellFormed(m, s);
    var t := Attempts(m, s);
    ScanFindsEvery(t, 0, p);
    var hits := Scan(t, 0);
    assert MatchAll(m, s) == hits;
    var i :| 0 <= i < |hits| && hits[i].start == p;
    assert MatchAll(m, s)[i].start == p;
  }

  /** The scan finds nothing exactly when the pattern matches nowhere. */
  lemma MatchAllEmptyIff(m: Marker, s: string)
    ensures |MatchAll(m, s)| == 0 <==> forall p :: 0 <= p <= |s| ==> MarkerAt(m, s, p).None?
  {
    if exists p :: 0 <= p <= |s| && MarkerAt(m, s, p).Some? {
      var p :| 0 <= p <= |s| && MarkerAt(m, s, p).Some?;
      MatchAllFindsEvery(m, s, p);
    }
  }

  /** Matches lie inside the text and follow one another without overlap. */
  predicate Increasing(hits: seq<Hit>, n: nat) {
    (forall i :: 0 <= i < |hits| ==> hits[i].start < hits[i].end <= n)
    && (forall i :: 0 <= i < |hits| - 1 ==> hits[i].end <= hits[i + 1].start)
  }

  lemma MatchAllIncreasing(m: Marker, s: string)
    ensures Increasing(MatchAll(m, s), |s|)
  {
  }

  /** The numbers the matches carry, in order: day numbers, or week start dates. */
  function HitValues(hits: seq<Hit>): (r: seq<int>)
    ensures |r| == |hits|
    ensures forall j :: 0 <= j < |hits| ==> r[j] == hits[j].value
  {
    seq(|hits|, j requires 0 <= j < |hits| => hits[j].value)
  }

  /** The end of span `i`: the next match's start, or the end of the text for the last. */
  function SpanEnd(hits: seq<Hit>, i: nat, n: nat): (e: nat)
    requires Increasing(hits, n) && i < |hits|
    ensures hits[i].end <= e <= n
    ensures i + 1 < |hits| ==> e == hits[i + 1].start
    ensures i + 1 == |hits| ==> e == n
  {
    if i + 1 < |hits| then hits[i + 1].start else n
  }

  /** `text.substring(match.index, endIndex)`: from a marker to the next one or to the end. */
  function Span(s: string, hits: seq<Hit>, i: nat): (r: string)
    requires Increasing(hits, |s|) && i < |hits|
    ensures |r| == SpanEnd(hits, i, |s|) - hits[i].start
    ensures r == s[hits[i].start..SpanEnd(hits, i, |s|)]
    ensures r[..hits[i].end - hits[i].start] == s[hits[i].start..hits[i].end]
  {
    s[hits[i].start..SpanEnd(hits, i, |s|)]
  }

  /** `f` applied to every span from the `i`-th on, in order. */
  function SpanMap<T>(f: string -> T, s: string, hits: seq<Hit>, i: nat): (r: seq<T>)
    requires Increasing(hits, |s|) && i <= |hits|
    ensures |r| == |hits| - i
    decreases |hits| - i
  {
    if i == |hits| then [] else [f(Span(s, hits, i))] + SpanMap(f, s, hits, i + 1)
  }

  /** Entry `j - i` of the map from span `i` on is `f` of span `j`. */
  lemma {:induction false} SpanMapAt<T>(f: string -> T, s: string, hits: seq<Hit>, i: nat, j: nat)
    requires Increasing(hits, |s|) && i <= j < |hits|
    ensures SpanMap(f, s, hits, i)[j - i] == f(Span(s, hits, j))
    decreases j - i
  {
    if i < j {
      SpanMapAt(f, s, hits, i + 1, j);
    }
  }

  function Concat(xs: seq<string>): string
    decreases |xs|
  {
    if |xs| == 0 then "" else xs[0] + Concat(xs[1..])
  }

  /** The spans from span `i` on, in order. */
  function SpansFrom(s: string, hits: seq<Hit>, i: nat): (spans: seq<string>)
    requires Increasing(hits, |s|) && i <= |hits|
    ensures |spans| == |hits| - i
    ensures forall j :: 0 <= j < |spans| ==> spans[j] == Span(s, hits, i + j)
    decreases |hits| - i
  {
    if i == |hits| then [] else [Span(s, hits, i)] + SpansFrom(s, hits, i + 1)
  }

  /**
   * Span coverage: the spans are contiguous and, concatenated, give back the text from
   * the first marker to the end; what comes before the first marker belongs to no span.
   */
  lemma {:induction false} SpansCover(s: string, hits: seq<Hit>, i: nat)
    requires Increasing(hits, |s|) && i < |hits|
    ensures Concat(SpansFrom(s, hits, i)) == s[hits[i].start..]
    decreases |hits| - i
  {
    var spans := SpansFrom(s, hits, i);
    if i + 1 == |hits| {
      assert spans == [Span(s, hits, i)];
      assert spans[1..] == [];
    } else {
      SpansCover(s, hits, i + 1);
      assert spans[1..] == SpansFrom(s, hits, i + 1);
      var e := hits[i + 1].start;
      assert s[hits[i].start..] == s[hits[i].start..e] + s[e..];
    }
  }
}
