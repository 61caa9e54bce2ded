/**
 * The plan-text parser: cleaned text is cut at the `День N` markers, each day's lines are
 * grouped under the `N. name` lines that open exercises, and each exercise's joined detail
 * lines give its kind, set count and repetition range. Also the one-exercise formatter.
 */
module WorkoutParser {
  import opened Wrappers
  import opened Text
  import opened Segment
  import opened Types
  import opened Blocks

  // ----- `/^(\d+)\.\s+(.+)/` -----

  /**
   * `(.+)` after `\s+`: greedy `\s+` gives back spaces one at a time (start positions
   * `j`, `j - 1`, …, `lo`) until `.+` finds a character that is not a line terminator.
   */
  function RestFrom(u: string, lo: nat, j: nat): (r: Option<string>)
    requires lo <= j <= |u|
    ensures r.Some? ==> |r.value| > 0 && NoLineTerminator(r.value)
    decreases j - lo
  {
    if j < |u| && !IsLineTerminator(u[j]) then
      var e := RunEnd(u, j, NonTerminators);
      assert forall i :: 0 <= i < e - j ==> u[j..e][i] == u[j + i] && InClass(NonTerminators, u[j + i]);
      Some(u[j..e])
    else if j == lo then None
    else RestFrom(u, lo, j - 1)
  }

  /** Group 2 of `/^(\d+)\.\s+(.+)/` on a line: the text after the number, the dot and the spaces. */
  function PlanHeaderRest(line: string): (r: Option<string>)
    ensures r.Some? ==> |r.value| > 0 && NoLineTerminator(r.value)
    ensures r.Some? ==> |line| > 0 && IsDigit(line[0])
  {
    var d := RunEnd(line, 0, Digits);
    if d == 0 || d == |line| || line[d] != '.' then None
    else
      var a := d + 1;
      var e := RunEnd(line, a, Spaces);
      if e == a then None else RestFrom(line, a + 1, e)
  }

  /** `(.+)` tried at a position from which no line terminator follows takes the rest of the line. */
  lemma RestFromRunsToEnd(u: string, lo: nat, j: nat)
    requires lo <= j < |u|
    requires forall i :: j <= i < |u| ==> !IsLineTerminator(u[i])
    ensures RestFrom(u, lo, j) == Some(u[j..])
  {
    RunEndIs(u, j, |u|, NonTerminators);
    assert !IsLineTerminator(u[j]);
    assert u[j..RunEnd(u, j, NonTerminators)] == u[j..];
  }

  /** Digits up to `d`, the dot, spaces up to `e`, then a non-space and no line terminator. */
  lemma PlanHeaderAt(line: string, d: nat, e: nat)
    requires 0 < d && d + 1 < e < |line|
    requires forall i :: 0 <= i < d ==> IsDigit(line[i])
    requires line[d] == '.'
    requires forall i :: d + 1 <= i < e ==> IsSpace(line[i])
    requires !IsSpace(line[e])
    requires forall i :: e <= i < |line| ==> !IsLineTerminator(line[i])
    ensures PlanHeaderRest(line) == Some(line[e..])
  {
    RunEndIs(line, 0, d, Digits);
    RunEndIs(line, d + 1, e, Spaces);
    RestFromRunsToEnd(line, d + 2, e);
  }

  /** A header as a writer types it, `<digits>.<spaces><rest>`, has `rest` as its group. */
  lemma PlanHeaderText(ds: string, sp: string, rest: string)
    requires |ds| > 0 && AllDigits(ds)
    requires |sp| > 0 && forall i :: 0 <= i < |sp| ==> IsSpace(sp[i])
    requires |rest| > 0 && !IsSpace(rest[0]) && NoLineTerminator(rest)
    ensures PlanHeaderRest(ds + "." + sp + rest) == Some(rest)
  {
    var line := ds + "." + sp + rest;
    var d := |ds|;
    var e := d + 1 + |sp|;
    assert forall i :: 0 <= i < d ==> line[i] == ds[i];
    assert line[d] == '.';
    assert forall i :: d + 1 <= i < e ==> line[i] == sp[i - d - 1];
    assert forall i :: e <= i < |line| ==> line[i] == rest[i - e];
    assert line[e..] == rest;
    PlanHeaderAt(line, d, e);
  }

  /** A line that does not start with a digit opens no exercise. */
  lemma NoDigitNoHeader(line: string)
    requires |line| == 0 || !IsDigit(line[0])
    ensures PlanHeaderRest(line).None?
  {
  }

  // ----- `parseExercise` -----

  /** `/суперсет/i` wins over `/дропсет/i`; neither gives a normal exercise. */
  function KindOf(details: string): ExerciseKind {
    if ContainsFolded(details, "суперсет") then Superset
    else if ContainsFolded(details, "дропсет") then Dropset
    else Normal
  }

  /** `/(\d+)\s*підход/i` tried at `p`: the digit run from `p`, optional spaces, the keyword. */
  function SetsAt(d: string, p: nat): Option<nat>
    requires p <= |d|
  {
    if p < |d| && IsDigit(d[p]) then
      var e := RunEnd(d, p, Digits);
      var f := RunEnd(d, e, Spaces);
      if MatchesAt(d, f, "підход") then Some(DigitsValue(d[p..e])) else None
    else None
  }

  /**
   * The leftmost position at or after `from` where the sets pattern matches; |d| when it
   * matches nowhere from `from` on.
   */
  function FirstSets(d: string, from: nat): (p: nat)
    requires from <= |d|
    ensures from <= p <= |d|
    ensures p < |d| ==> SetsAt(d, p).Some?
    ensures forall q :: from <= q < p ==> SetsAt(d, q).None?
    decreases |d| - from
  {
    if from == |d| || SetsAt(d, from).Some? then from else FirstSets(d, from + 1)
  }

  /** `sets`: the number of the leftmost sets match, or 3. */
  function SetsCount(details: string): nat {
    var p := FirstSets(details, 0);
    if p < |details| then SetsAt(details, p).value else 3
  }

  /** A sets match needs the keyword. */
  lemma SetsAtNeedsKeyword(d: string, p: nat)
    requires p <= |d|
    ensures SetsAt(d, p).Some? ==> ContainsFolded(d, "підход")
  {
    if SetsAt(d, p).Some? {
      var e := RunEnd(d, p, Digits);
      var f := RunEnd(d, e, Spaces);
      assert MatchesAt(d, f, "підход");
    }
  }

  /** Without the keyword there is no sets match, and the count is the default 3. */
  lemma SetsCountDefault(details: string)
    requires !ContainsFolded(details, "підход")
    ensures SetsCount(details) == 3
  {
    SetsAtNeedsKeyword(details, FirstSets(details, 0));
  }

  /** The count is the number of the first match: no earlier position matches, `p` does. */
  lemma SetsCountFirstMatch(d: string, p: nat)
    requires p < |d| && SetsAt(d, p).Some?
    requires forall q :: 0 <= q < p ==> SetsAt(d, q).None?
    ensures SetsCount(d) == SetsAt(d, p).value
  {
    var f := FirstSets(d, 0);
    assert !(f < p);
    assert !(p < f);
  }

  /** Where the pattern matches nowhere, the count is the default 3. */
  lemma SetsCountNoMatch(d: string)
    requires forall q :: 0 <= q <= |d| ==> SetsAt(d, q).None?
    ensures SetsCount(d) == 3
  {
  }

  /**
   * Details in which the first digit stands at `k` and opens a number, optional spaces and
   * the keyword (digits up to `e`, spaces up to `f`, `підход` at `f`) have that number of sets,
   * whatever words come before it.
   */
  lemma SetsCountAfterWords(d: string, k: nat, e: nat, f: nat)
    requires k < e <= f < |d|
    requires forall i :: 0 <= i < k ==> !IsDigit(d[i])
    requires forall i :: k <= i < e ==> IsDigit(d[i])
    requires forall i :: e <= i < f ==> IsSpace(d[i])
    requires MatchesAt(d, f, "підход")
    ensures SetsCount(d) == DigitsValue(d[k..e])
  {
    FoldAt(d, f, "підход", 0);
    CyrillicIsNotPlain(d[f]);
    RunEndIs(d, k, e, Digits);
    RunEndIs(d, e, f, Spaces);
    assert SetsAt(d, k) == Some(DigitsValue(d[k..e]));
    SetsCountFirstMatch(d, k);
  }

  predicate IsRepsChar(c: char) {
    InClass(DigitsOrHyphens, c)
  }

  /**
   * `/(?:по\s+)?([\d-]+)\s*\/i` tried at `p`. The optional group is tried first; when it
   * matched, `d[p]` is a letter, so leaving the group out cannot match either.
   */
  function RepsAt(d: string, p: nat): (r: Option<string>)
    requires p <= |d|
  {
    var b := if MatchesAt(d, p, "по") && RunEnd(d, p + 2, Spaces) > p + 2 then RunEnd(d, p + 2, Spaces) else p;
    if b < |d| && IsRepsChar(d[b]) then Some(d[b..RunEnd(d, b, DigitsOrHyphens)]) else None
  }

  /**
   * The leftmost position at or after `from` where the reps pattern matches; |d| when it
   * matches nowhere from `from` on.
   */
  function FirstReps(d: string, from: nat): (p: nat)
    requires from <= |d|
    ensures from <= p <= |d|
    ensures p < |d| ==> RepsAt(d, p).Some?
    ensures forall q :: from <= q < p ==> RepsAt(d, q).None?
    decreases |d| - from
  {
    if from == |d| || RepsAt(d, from).Some? then from else FirstReps(d, from + 1)
  }

  /** The leftmost match comes no later than any match. */
  lemma {:induction false} FirstRepsBefore(d: string, from: nat, q: nat)
    requires from <= q < |d| && RepsAt(d, q).Some?
    ensures FirstReps(d, from) <= q
    decreases q - from
  {
    if from < q && RepsAt(d, from).None? {
      FirstRepsBefore(d, from + 1, q);
    }
  }

  /** `reps`: group 1 of the leftmost reps match, or "8-12". */
  function RepsText(details: string): (r: string)
    ensures |r| > 0 && forall i :: 0 <= i < |r| ==> IsRepsChar(r[i])
  {
    var p := FirstReps(details, 0);
    if p < |details| then RepsAt(details, p).value else "8-12"
  }

  /** The first maximal run of digits and hyphens, if there is one. */
  function FirstRepsRun(d: string): Option<string> {
    var q := FirstIn(d, 0, DigitsOrHyphens);
    if q == |d| then None else Some(d[q..RunEnd(d, q, DigitsOrHyphens)])
  }

  /** Any reps match from `p` on captures the run at the first digit or hyphen after `p`. */
  lemma RepsAtCapturesFirstRun(d: string, p: nat)
    requires p <= |d|
    ensures RepsAt(d, p).Some? ==> FirstIn(d, p, DigitsOrHyphens) < |d|
    ensures RepsAt(d, p).Some? ==>
      RepsAt(d, p) == Some(d[FirstIn(d, p, DigitsOrHyphens)..RunEnd(d, FirstIn(d, p, DigitsOrHyphens), DigitsOrHyphens)])
  {
    if RepsAt(d, p).Some? {
      var b := if MatchesAt(d, p, "по") && RunEnd(d, p + 2, Spaces) > p + 2 then RunEnd(d, p + 2, Spaces) else p;
      if b > p {
        FoldAt(d, p, "по", 0);
        FoldAt(d, p, "по", 1);
        CyrillicIsNotPlain(d[p]);
        CyrillicIsNotPlain(d[p + 1]);
        forall i | p <= i < b ensures !InClass(DigitsOrHyphens, d[i]) {
          if i >= p + 2 {
            assert InClass(Spaces, d[i]);
          }
        }
      }
      FirstInIs(d, p, b, DigitsOrHyphens);
    }
  }

  /** The first position of class `k` from `from` is `q` when `q` is in the class and nothing before it is. */
  lemma FirstInIs(s: string, from: nat, q: nat, k: CharClass)
    requires from <= q < |s|
    requires forall i :: from <= i < q ==> !InClass(k, s[i])
    requires InClass(k, s[q])
    ensures FirstIn(s, from, k) == q
    decreases q - from
  {
    if from < q {
      FirstInIs(s, from + 1, q, k);
    }
  }

  /**
   * `reps` is the first maximal run of digits and hyphens anywhere in the details, or
   * "8-12" when there is none: the optional `по` prefix never changes which run is taken.
   */
  lemma RepsIsFirstRun(details: string)
    ensures RepsText(details) == match FirstRepsRun(details) case Some(run) => run case None => "8-12"
  {
    var p := FirstReps(details, 0);
    var q := FirstIn(details, 0, DigitsOrHyphens);
    RepsAtCapturesFirstRun(details, p);
    if q < |details| {
      FoldAt(details, q, "по", 0);
      RepsCharFoldsToItself(details[q]);
      assert RepsAt(details, q).Some?;
      FirstRepsBefore(details, 0, q);
      FirstInIs(details, 0, FirstIn(details, p, DigitsOrHyphens), DigitsOrHyphens);
    } else {
      assert forall i :: 0 <= i < |details| ==> !IsRepsChar(details[i]);
    }
  }

  lemma RepsCharFoldsToItself(c: char)
    requires IsRepsChar(c)
    ensures Fold(c) == c && c != 'п'
  {
  }

  /**
   * Details whose first digit or hyphen stands at `k` and opens a run of them up to `e` take
   * that run as the reps, whatever words come before it.
   */
  lemma RepsAfterWords(d: string, k: nat, e: nat)
    requires k < e <= |d|
    requires forall i :: 0 <= i < k ==> !IsRepsChar(d[i])
    requires forall i :: k <= i < e ==> IsRepsChar(d[i])
    requires e < |d| ==> !IsRepsChar(d[e])
    ensures RepsText(d) == d[k..e]
  {
    RepsIsFirstRun(d);
    FirstInIs(d, 0, k, DigitsOrHyphens);
    RunEndIs(d, k, e, DigitsOrHyphens);
  }

  /** The reps pattern takes the set count's digits when they come first: "3 підходи по 8-12" gives "3". */
  lemma RepsOfUsualDetails()
    ensures RepsText("3 підходи по 8-12") == "3"
  {
    var d := "3 підходи по 8-12";
    assert IsRepsChar(d[0]) && !IsRepsChar(d[1]);
    RepsAfterWords(d, 0, 1);
    assert d[0] == '3' && d[0..1] == [d[0]];
  }

  /** A single digit at `k`, a space and the keyword, with no digit before: that digit's value. */
  lemma SetsCountOneDigit(d: string, k: nat, f: nat)
    requires f == k + 2 && f < |d|
    requires forall i :: 0 <= i < k ==> !IsDigit(d[i])
    requires IsDigit(d[k]) && IsSpace(d[k + 1])
    requires MatchesAt(d, f, "підход")
    ensures SetsCount(d) == DigitValue(d[k])
  {
    SetsCountAfterWords(d, k, k + 1, f);
    assert d[k..k + 1] == [d[k]];
    OneDigitValue(d[k]);
  }

  /** "3 підходи по 8-12" has 3 sets. */
  lemma SetsOfUsualDetails()
    ensures SetsCount("3 підходи по 8-12") == 3
  {
    var d := "3 підходи по 8-12";
    assert MatchesAt(d, 2, "підход") by {
      assert d[2..8] == "підход";
      assert Lower("підход") == "підход";
    }
    SetsCountAfterWords(d, 0, 1, 2);
    assert d[0..1] == [d[0]];
    OneDigitValue(d[0]);
  }

  /** "Суперсет 3 підходи по 8-12" has 3 sets: the words before the count are skipped. */
  lemma SetsOfSupersetDetails(d: string)
    requires d == "Суперсет 3 підходи по 8-12"
    ensures SetsCount(d) == 3
  {
    assert MatchesAt(d, 11, "підход") by {
      assert d[11..17] == "підход";
      assert Lower("підход") == "підход";
    }
    assert forall i :: 0 <= i < 9 ==> !IsDigit(d[i]);
    assert IsDigit(d[9]) && IsSpace(d[10]);
    assert DigitValue(d[9]) == 3;
    SetsCountOneDigit(d, 9, 11);
  }

  /** "Суперсет 3 підходи по 8-12" has reps "3", the first run of digits and hyphens. */
  lemma RepsOfSupersetDetails(d: string)
    requires d == "Суперсет 3 підходи по 8-12"
    ensures RepsText(d) == "3"
  {
    assert forall i :: 0 <= i < 9 ==> !IsRepsChar(d[i]);
    assert forall i :: 9 <= i < 10 ==> IsRepsChar(d[i]);
    assert !IsRepsChar(d[10]);
    RepsAfterWords(d, 9, 10);
    assert d[9] == '3' && d[9..10] == [d[9]];
  }

  /** `parseExercise`: kind, sets and reps read from the details, which are kept as the notes. */
  function ParseExercise(name: string, details: string, id: string): (e: Exercise)
    ensures e.id == id && e.name == name && e.notes == details
  {
    Exercise(id, name, SetsCount(details), RepsText(details), KindOf(details), details)
  }

  /** Details without digits, hyphens or keywords give the defaults: 3 sets of "8-12", normal. */
  lemma ParseExerciseDefaults(name: string, details: string, id: string)
    requires forall i :: 0 <= i < |details| ==> !IsRepsChar(details[i])
    requires !ContainsFolded(details, "суперсет") && !ContainsFolded(details, "дропсет")
    ensures ParseExercise(name, details, id) == Exercise(id, name, 3, "8-12", Normal, details)
  {
    RepsIsFirstRun(details);
    assert forall i :: 0 <= i < |details| ==> !IsDigit(details[i]);
  }

  /** "суперсет" in any letter case anywhere in the details makes a superset, whatever else they say. */
  lemma SupersetAnyCase(u: string, t: string, rest: string)
    requires Lower(t) == "суперсет"
    ensures KindOf(u + t + rest) == Superset
  {
    var d := u + t + rest;
    assert d[|u|..|u| + |t|] == t;
    assert MatchesAt(d, |u|, "суперсет");
  }

  /** "дропсет" in any letter case makes a dropset when no "суперсет" occurs. */
  lemma DropsetAnyCase(u: string, t: string, rest: string)
    requires Lower(t) == "дропсет"
    requires !ContainsFolded(u + t + rest, "суперсет")
    ensures KindOf(u + t + rest) == Dropset
  {
    var d := u + t + rest;
    assert d[|u|..|u| + |t|] == t;
    assert MatchesAt(d, |u|, "дропсет");
  }

  /** A capitalised keyword is recognised: "Суперсет з жимом" is a superset. */
  lemma CapitalisedSuperset()
    ensures KindOf("Суперсет з жимом") == Superset
  {
    assert Lower("Суперсет") == "суперсет";
    SupersetAnyCase("", "Суперсет", " з жимом");
    assert "" + "Суперсет" + " з жимом" == "Суперсет з жимом";
  }

  /**
   * A kind keyword before the count changes neither sets nor reps:
   * "Суперсет 3 підходи по 8-12" is a superset of 3 sets with reps "3".
   */
  lemma SupersetDetails(name: string, d: string, id: string)
    requires d == "Суперсет 3 підходи по 8-12"
    ensures ParseExercise(name, d, id) == Exercise(id, name, 3, "3", Superset, d)
  {
    assert Lower("Суперсет") == "суперсет";
    SupersetAnyCase("", "Суперсет", " 3 підходи по 8-12");
    assert "" + "Суперсет" + " 3 підходи по 8-12" == d;
    SetsOfSupersetDetails(d);
    RepsOfSupersetDetails(d);
  }

  /** Only `с`, `С` and the variant U+1C83 fold to `с`. */
  lemma FoldsToEs(c: char)
    ensures Fold(c) == 'с' ==> c == 'с' || c == 'С' || c == '\U{1C83}'
  {
  }

  /** "суперсет" occurs nowhere in "Дропсет 3 підходи по 8-12", in any letter case. */
  lemma NoSupersetInDropsetDetails(d: string)
    requires d == "Дропсет 3 підходи по 8-12"
    ensures !ContainsFolded(d, "суперсет")
  {
    forall p | 0 <= p <= |d| ensures !MatchesAt(d, p, "суперсет") {
      FoldAt(d, p, "суперсет", 0);
      FoldAt(d, p, "суперсет", 1);
      if p < |d| {
        FoldsToEs(d[p]);
      }
    }
  }

  /** "Дропсет 3 підходи по 8-12" is a dropset. */
  lemma KindOfDropsetDetails(d: string)
    requires d == "Дропсет 3 підходи по 8-12"
    ensures KindOf(d) == Dropset
  {
    NoSupersetInDropsetDetails(d);
    assert Lower("Дропсет") == "дропсет";
    assert "" + "Дропсет" + " 3 підходи по 8-12" == d;
    DropsetAnyCase("", "Дропсет", " 3 підходи по 8-12");
  }

  /** "Дропсет 3 підходи по 8-12" has 3 sets. */
  lemma SetsOfDropsetDetails(d: string)
    requires d == "Дропсет 3 підходи по 8-12"
    ensures SetsCount(d) == 3
  {
    assert MatchesAt(d, 10, "підход") by {
      assert d[10..16] == "підход";
      assert Lower("підход") == "підход";
    }
    assert forall i :: 0 <= i < 8 ==> !IsDigit(d[i]);
    assert IsDigit(d[8]) && IsSpace(d[9]);
    assert DigitValue(d[8]) == 3;
    SetsCountOneDigit(d, 8, 10);
  }

  /** "Дропсет 3 підходи по 8-12" has reps "3". */
  lemma RepsOfDropsetDetails(d: string)
    requires d == "Дропсет 3 підходи по 8-12"
    ensures RepsText(d) == "3"
  {
    assert forall i :: 0 <= i < 8 ==> !IsRepsChar(d[i]);
    assert forall i :: 8 <= i < 9 ==> IsRepsChar(d[i]);
    assert !IsRepsChar(d[9]);
    RepsAfterWords(d, 8, 9);
    assert d[8] == '3' && d[8..9] == [d[8]];
  }

  /** "Дропсет 3 підходи по 8-12" is a dropset of 3 sets with reps "3". */
  lemma DropsetDetails(name: string, d: string, id: string)
    requires d == "Дропсет 3 підходи по 8-12"
    ensures ParseExercise(name, d, id) == Exercise(id, name, 3, "3", Dropset, d)
  {
    KindOfDropsetDetails(d);
    SetsOfDropsetDetails(d);
    RepsOfDropsetDetails(d);
  }

  // ----- `parseExercises` -----

  /** The exercise being read: its name and the details gathered so far. */
  datatype Draft = Draft(name: string, details: string)

  /** The loop's state: the exercises pushed so far, as drafts, and the open one, if any. */
  datatype PlanAcc = PlanAcc(done: seq<Draft>, cur: Option<Draft>)

  /** `details += (details ? ' ' : '') + line`. */
  function AppendDetail(details: string, line: string): (r: string)
    ensures |details| > 0 ==> r == details + " " + line
    ensures |details| == 0 ==> r == line
  {
    if |details| > 0 then details + " " + line else details + line
  }

  /** A line as the loop sees it: an opener with its trimmed name, a detail line, or nothing. */
  function PlanTag(raw: string): Tagged<string> {
    var line := Trim(raw);
    match PlanHeaderRest(line)
    case Some(g) => Open(Trim(g))
    case None => if |line| > 0 then Item(line) else Skip
  }

  function PlanTags(lines: seq<string>): (ts: seq<Tagged<string>>)
    ensures |ts| == |lines|
    decreases |lines|
  {
    if |lines| == 0 then [] else [PlanTag(lines[0])] + PlanTags(lines[1..])
  }

  /** The drafts pushed so far and the open one. */
  function Flushed(acc: PlanAcc): seq<Draft> {
    match acc.cur
    case None => acc.done
    case Some(d) => acc.done + [d]
  }

  /** One iteration of the line loop: an opener pushes the open exercise and opens a new one. */
  function PlanStep(acc: PlanAcc, t: Tagged<string>): PlanAcc {
    match t
    case Open(n) => PlanAcc(Flushed(acc), Some(Draft(n, "")))
    case Item(line) =>
      (match acc.cur
       case Some(d) => PlanAcc(acc.done, Some(Draft(d.name, AppendDetail(d.details, line))))
       case None => acc)
    case Skip => acc
  }

  /** The loop over the remaining lines, then the final push. */
  function PlanFold(acc: PlanAcc, ts: seq<Tagged<string>>): seq<Draft>
    decreases |ts|
  {
    if |ts| == 0 then Flushed(acc) else PlanFold(PlanStep(acc, ts[0]), ts[1..])
  }

  /** A draft parsed with the id the supply gives at position `n`. */
  function ParseDraft(ids: IdSupply): (Draft, nat) -> Exercise {
    (d: Draft, n: nat) => ParseExercise(d.name, d.details, ids(n))
  }

  /** Pushing the parse of one more draft keeps the exercises those of the drafts. */
  lemma PushParsed(ids: IdSupply, next: nat, exercises: seq<Exercise>, done: seq<Draft>, d: Draft)
    requires exercises == Numbered(ParseDraft(ids), next, done)
    ensures exercises + [ParseExercise(d.name, d.details, ids(next + |exercises|))] == Numbered(ParseDraft(ids), next, done + [d])
  {
    NumberedPush(ParseDraft(ids), next, done, d);
  }

  /** What `parseExercises` returns as drafts: names and details, before parsing the fields. */
  function DayDrafts(dayText: string): seq<Draft> {
    PlanFold(PlanAcc([], None), PlanTags(Split(dayText, '\n')))
  }

  /** What `parseExercises` returns for a day's text when its ids are taken from `next` on. */
  function DayExercises(dayText: string, ids: IdSupply, next: nat): seq<Exercise> {
    Numbered(ParseDraft(ids), next, DayDrafts(dayText))
  }

  /** The line loop's invariant: folding the remaining lines from the current state gives all the drafts. */
  ghost predicate LinesLoop(done: seq<Draft>, cur: Option<Draft>, lines: seq<string>, i: nat, all: seq<Draft>)
    requires i <= |lines|
  {
    PlanFold(PlanAcc(done, cur), PlanTags(lines[i..])) == all
  }

  /** The line loop's invariant survives one line handled as `PlanStep` says. */
  lemma LinesLoopStep(done: seq<Draft>, cur: Option<Draft>, done': seq<Draft>, cur': Option<Draft>,
                      lines: seq<string>, i: nat, i': nat, all: seq<Draft>)
    requires i < |lines| && i' == i + 1 && LinesLoop(done, cur, lines, i, all)
    requires PlanAcc(done', cur') == PlanStep(PlanAcc(done, cur), PlanTag(lines[i]))
    ensures LinesLoop(done', cur', lines, i', all)
  {
    var ts := PlanTags(lines[i..]);
    assert ts == [PlanTag(lines[i])] + PlanTags(lines[i + 1..]) by {
      assert lines[i..][1..] == lines[i + 1..];
    }
    assert ts[1..] == PlanTags(lines[i + 1..]);
  }

  /** `parseExercises`, with the source's mutable open exercise and push. */
  method ParseExercises(dayText: string, ids: IdSupply, next: nat) returns (exercises: seq<Exercise>)
    ensures exercises == DayExercises(dayText, ids, next)
  {
    var lines := Split(dayText, '\n');
    exercises := [];
    ghost var done: seq<Draft> := [];
    var cur: Option<Draft> := None;
    var i: nat := 0;
    while i < |lines|
      invariant i <= |lines|
      invariant exercises == Numbered(ParseDraft(ids), next, done)
      invariant LinesLoop(done, cur, lines, i, DayDrafts(dayText))
    {
      ghost var done0, cur0 := done, cur;
      var line := Trim(lines[i]);
      var header := PlanHeaderRest(line);
      if header.Some? {
        if cur.Some? {
          PushParsed(ids, next, exercises, done, cur.value);
          exercises := exercises + [ParseExercise(cur.value.name, cur.value.details, ids(next + |exercises|))];
          done := done + [cur.value];
        }
        cur := Some(Draft(Trim(header.value), ""));
      } else if cur.Some? && |line| > 0 {
        cur := Some(Draft(cur.value.name, AppendDetail(cur.value.details, line)));
      }
      ghost var i0 := i;
      i := i + 1;
      LinesLoopStep(done0, cur0, done, cur, lines, i0, i, DayDrafts(dayText));
    }
    assert lines[i..] == [];
    if cur.Some? {
      PushParsed(ids, next, exercises, done, cur.value);
      exercises := exercises + [ParseExercise(cur.value.name, cur.value.details, ids(next + |exercises|))];
      done := done + [cur.value];
    }
  }

  // ----- the grouping the loop computes -----

  /** The details of an exercise built from its detail lines, one `+=` at a time. */
  function AppendAll(details: string, items: seq<string>): string
    decreases |items|
  {
    if |items| == 0 then details else AppendAll(AppendDetail(details, items[0]), items[1..])
  }

  /** The draft of each group: its name and its detail lines appended in order. */
  function GroupDrafts(gs: seq<Group<string>>): (r: seq<Draft>)
    ensures |r| == |gs|
    decreases |gs|
  {
    if |gs| == 0 then [] else [Draft(gs[0].name, AppendAll("", gs[0].items))] + GroupDrafts(gs[1..])
  }

  lemma {:induction false} GroupDraftsAt(gs: seq<Group<string>>, k: nat)
    requires k < |gs|
    ensures GroupDrafts(gs)[k] == Draft(gs[k].name, AppendAll("", gs[k].items))
    decreases k
  {
    if k > 0 {
      GroupDraftsAt(gs[1..], k - 1);
    }
  }

  function WithPending(cur: Option<Draft>, items: seq<string>): Option<Draft> {
    match cur
    case None => None
    case Some(d) => Some(Draft(d.name, AppendAll(d.details, items)))
  }

  /** What the loop yields from state `acc` on tags `ts`, by the grouping. */
  function Grouped(acc: PlanAcc, ts: seq<Tagged<string>>): seq<Draft> {
    Flushed(PlanAcc(acc.done, WithPending(acc.cur, Pending(ts)))) + GroupDrafts(Groups(ts))
  }

  lemma GroupDraftsCons(g: Group<string>, gs: seq<Group<string>>)
    ensures GroupDrafts([g] + gs) == [Draft(g.name, AppendAll("", g.items))] + GroupDrafts(gs)
  {
    assert ([g] + gs)[1..] == gs;
  }

  /** One loop step agrees with the grouping of the tags it consumes. */
  lemma GroupedStep(acc: PlanAcc, t: Tagged<string>, ts: seq<Tagged<string>>)
    ensures Grouped(PlanStep(acc, t), ts) == Grouped(acc, [t] + ts)
  {
    match t
    case Open(n) => GroupedOpen(acc, n, ts);
    case Item(x) => GroupedItem(acc, x, ts);
    case Skip => GroupedSkip(acc, ts);
  }

  lemma GroupedOpen(acc: PlanAcc, n: string, ts: seq<Tagged<string>>)
    ensures Grouped(PlanStep(acc, Open(n)), ts) == Grouped(acc, [Open(n)] + ts)
  {
    var p := Pending(ts);
    var d := Draft(n, AppendAll("", p));
    var rest := GroupDrafts(Groups(ts));
    var f := Flushed(acc);
    TagsCons(Open(n), ts);
    GroupDraftsCons(Group(n, p), Groups(ts));
    assert Grouped(PlanStep(acc, Open(n)), ts) == (f + [d]) + rest by {
      assert PlanStep(acc, Open(n)) == PlanAcc(f, Some(Draft(n, "")));
      assert WithPending(Some(Draft(n, "")), p) == Some(d);
    }
    assert Grouped(acc, [Open(n)] + ts) == f + ([d] + rest) by {
      assert WithPending(acc.cur, []) == acc.cur;
    }
    Associate(f, [d], rest);
  }

  lemma GroupedItem(acc: PlanAcc, x: string, ts: seq<Tagged<string>>)
    ensures Grouped(PlanStep(acc, Item(x)), ts) == Grouped(acc, [Item(x)] + ts)
  {
    TagsCons(Item(x), ts);
    PendingItem(acc.cur, x, Pending(ts));
  }

  lemma GroupedSkip(acc: PlanAcc, ts: seq<Tagged<string>>)
    ensures Grouped(PlanStep(acc, Skip), ts) == Grouped(acc, [Skip] + ts)
  {
    TagsCons(Skip, ts);
  }

  /** A detail line appended now or with the rest of the block gives the same open exercise. */
  lemma PendingItem(cur: Option<Draft>, x: string, rest: seq<string>)
    ensures WithPending(PlanStep(PlanAcc([], cur), Item(x)).cur, rest) == WithPending(cur, [x] + rest)
  {
    if cur.Some? {
      assert ([x] + rest)[1..] == rest;
    }
  }

  /**
   * From any state, the loop pushes the open exercise with the detail lines before the
   * next opener, then one exercise per opener with the detail lines of its block.
   */
  lemma {:induction false} PlanFoldIsGrouping(acc: PlanAcc, ts: seq<Tagged<string>>)
    ensures PlanFold(acc, ts) == Grouped(acc, ts)
    decreases |ts|
  {
    if |ts| > 0 {
      PlanFoldIsGrouping(PlanStep(acc, ts[0]), ts[1..]);
      GroupedStep(acc, ts[0], ts[1..]);
      assert [ts[0]] + ts[1..] == ts;
    } else {
      assert WithPending(acc.cur, []) == acc.cur;
    }
  }

  /** `parseExercises` yields one exercise per opener line, built from the block under it. */
  lemma DayDraftsAreGroups(dayText: string)
    ensures DayDrafts(dayText) == GroupDrafts(Groups(PlanTags(Split(dayText, '\n'))))
  {
    PlanFoldIsGrouping(PlanAcc([], None), PlanTags(Split(dayText, '\n')));
  }

  /**
   * Every opener line gives an exercise, in order, even one without details: the names are
   * the trimmed opener texts, the notes the block's non-empty lines joined by spaces, and
   * the ids the supply's from `next` on.
   */
  lemma DayExercisesFollowHeaders(dayText: string, ids: IdSupply, next: nat)
    ensures var ts := PlanTags(Split(dayText, '\n'));
      var ex := DayExercises(dayText, ids, next);
      |ex| == |Groups(ts)| == |OpenNames(ts)|
      && (forall k :: 0 <= k < |ex| ==> ex[k].name == OpenNames(ts)[k])
      && (forall k :: 0 <= k < |ex| ==> ex[k].notes == Join(Groups(ts)[k].items, ' ') && ex[k].id == ids(next + k))
  {
    var ts := PlanTags(Split(dayText, '\n'));
    DayDraftsAreGroups(dayText);
    GroupsFollowOpeners(ts);
    var gs := Groups(ts);
    PlanTagsItemsNonEmpty(Split(dayText, '\n'));
    GroupItemsNonEmpty(ts);
    var ex := DayExercises(dayText, ids, next);
    forall k | 0 <= k < |gs|
      ensures ex[k] == ParseExercise(gs[k].name, AppendAll("", gs[k].items), ids(next + k))
      ensures AppendAll("", gs[k].items) == Join(gs[k].items, ' ')
    {
      GroupDraftsAt(gs, k);
      AppendAllJoins(gs[k].items);
    }
  }

  predicate ItemsNonEmpty(ts: seq<Tagged<string>>) {
    forall i :: 0 <= i < |ts| && ts[i].Item? ==> |ts[i].item| > 0
  }

  /** Detail lines are non-empty trimmed lines. */
  lemma {:induction false} PlanTagsItemsNonEmpty(lines: seq<string>)
    ensures ItemsNonEmpty(PlanTags(lines))
    decreases |lines|
  {
    if |lines| > 0 {
      PlanTagsItemsNonEmpty(lines[1..]);
      var ts := PlanTags(lines);
      assert ts[1..] == PlanTags(lines[1..]);
      assert forall i :: 1 <= i < |ts| ==> ts[i] == ts[1..][i - 1];
    }
  }

  lemma {:induction false} PendingNonEmpty(ts: seq<Tagged<string>>)
    requires ItemsNonEmpty(ts)
    ensures forall i :: 0 <= i < |Pending(ts)| ==> |Pending(ts)[i]| > 0
    decreases |ts|
  {
    if |ts| > 0 {
      assert forall i :: 0 <= i < |ts[1..]| ==> ts[1..][i] == ts[i + 1];
      PendingNonEmpty(ts[1..]);
    }
  }

  /** Every detail item of every group is non-empty. */
  lemma {:induction false} GroupItemsNonEmpty(ts: seq<Tagged<string>>)
    requires ItemsNonEmpty(ts)
    ensures forall k, i :: 0 <= k < |Groups(ts)| && 0 <= i < |Groups(ts)[k].items| ==> |Groups(ts)[k].items[i]| > 0
    decreases |ts|
  {
    if |ts| > 0 {
      assert forall i :: 0 <= i < |ts[1..]| ==> ts[1..][i] == ts[i + 1];
      GroupItemsNonEmpty(ts[1..]);
      if ts[0].Open? {
        PendingNonEmpty(ts[1..]);
      }
    }
  }

  /** Appending non-empty lines one `+=` at a time joins them with single spaces. */
  lemma AppendAllJoins(items: seq<string>)
    requires forall i :: 0 <= i < |items| ==> |items[i]| > 0
    ensures AppendAll("", items) == Join(items, ' ')
  {
    if |items| > 0 {
      AppendAllOnto(items[0], items[1..]);
      assert AppendAll("", items) == AppendAll(items[0], items[1..]);
    }
  }

  lemma {:induction false} AppendAllOnto(d: string, items: seq<string>)
    requires |d| > 0
    ensures AppendAll(d, items) == if |items| == 0 then d else d + " " + Join(items, ' ')
    decreases |items|
  {
    if |items| > 0 {
      var d' := d + " " + items[0];
      AppendAllOnto(d', items[1..]);
      if |items| > 1 {
        assert Join(items, ' ') == items[0] + [' '] + Join(items[1..], ' ');
      }
    }
  }

  // ----- `parseWorkoutPlan` -----

  /** The drafts of every span, in marker order. */
  function SpanDrafts(text: string, hits: seq<Hit>): (dss: seq<seq<Draft>>)
    requires Increasing(hits, |text|)
    ensures |dss| == |hits|
  {
    SpanMap(DayDrafts, text, hits, 0)
  }

  /** Entry `j` of the drafts of every span is the drafts of span `j`. */
  lemma SpanDraftsAt(text: string, hits: seq<Hit>, j: nat)
    requires Increasing(hits, |text|) && j < |hits|
    ensures SpanDrafts(text, hits)[j] == DayDrafts(Span(text, hits, j))
  {
    SpanMapAt(DayDrafts, text, hits, 0, j);
  }

  /**
   * The day workouts of spans with day numbers `values` and drafts `dss`: a span that
   * yields exercises gives a day; exercise ids continue from `next` across spans.
   */
  function DaysOf(values: seq<int>, dss: seq<seq<Draft>>, ids: IdSupply, next: nat): (days: seq<DayWorkout>)
    requires |values| == |dss|
    ensures forall k :: 0 <= k < |days| ==> |days[k].exercises| > 0
    decreases |values|
  {
    if |values| == 0 then []
    else
      var ex := Numbered(ParseDraft(ids), next, dss[0]);
      (if |ex| > 0 then [DayWorkout(values[0], ex)] else []) + DaysOf(values[1..], dss[1..], ids, next + |ex|)
  }

  /** One step of the day loop: span `i` gives a day when it yields exercises. */
  lemma DaysOfStep(values: seq<int>, dss: seq<seq<Draft>>, ids: IdSupply, n: nat, i: nat)
    requires |values| == |dss| && i < |values|
    ensures var ex := Numbered(ParseDraft(ids), n, dss[i]);
      DaysOf(values[i..], dss[i..], ids, n)
      == (if |ex| > 0 then [DayWorkout(values[i], ex)] else []) + DaysOf(values[i + 1..], dss[i + 1..], ids, n + |ex|)
  {
    assert values[i..][1..] == values[i + 1..] && dss[i..][1..] == dss[i + 1..];
    assert values[i..][0] == values[i] && dss[i..][0] == dss[i];
  }

  /** The day loop's invariant: the days so far, followed by those of the spans from `i` on, are all the days. */
  ghost predicate DaysLoop(days: seq<DayWorkout>, values: seq<int>, dss: seq<seq<Draft>>, ids: IdSupply,
                           next: nat, n: nat, i: nat)
    requires |values| == |dss| && i <= |values|
  {
    days + DaysOf(values[i..], dss[i..], ids, n) == DaysOf(values, dss, ids, next)
  }

  /** The day loop's invariant survives one span: its day, when it has one, is appended. */
  lemma DaysLoopStep(days: seq<DayWorkout>, days': seq<DayWorkout>, values: seq<int>, dss: seq<seq<Draft>>, ids: IdSupply,
                     next: nat, n: nat, i: nat, ex: seq<Exercise>, n': nat, i': nat)
    requires |values| == |dss| && i < |values| && n' == n + |ex| && i' == i + 1
    requires DaysLoop(days, values, dss, ids, next, n, i)
    requires ex == Numbered(ParseDraft(ids), n, dss[i])
    requires days' == if |ex| > 0 then days + [DayWorkout(values[i], ex)] else days
    ensures DaysLoop(days', values, dss, ids, next, n', i')
  {
    var head := if |ex| > 0 then [DayWorkout(values[i], ex)] else [];
    var later := DaysOf(values[i'..], dss[i'..], ids, n');
    assert days' == days + head;
    assert DaysOf(values[i..], dss[i..], ids, n) == head + later by {
      DaysOfStep(values, dss, ids, n, i);
    }
    Associate(days, head, later);
  }

  /** What `parseWorkoutPlan` returns, exercise ids taken from the supply from `next` on. */
  function PlanParse(text: string, ids: IdSupply, next: nat): (days: seq<DayWorkout>)
    ensures forall k :: 0 <= k < |days| ==> |days[k].exercises| > 0
  {
    var clean := CleanText(text);
    var hits := MatchAll(DayMarker, clean);
    MatchAllIncreasing(DayMarker, clean);
    if |hits| == 0 then [] else DaysOf(HitValues(hits), SpanDrafts(clean, hits), ids, next)
  }

  /** `parseWorkoutPlan`: cleaning, the day markers, and the days of their spans. */
  method ParseWorkoutPlan(text: string, ids: IdSupply, next: nat) returns (days: seq<DayWorkout>)
    ensures days == PlanParse(text, ids, next)
  {
    days := [];
    var clean := CleanText(text);
    var dayMatches := MatchAll(DayMarker, clean);
    MatchAllIncreasing(DayMarker, clean);
    if |dayMatches| == 0 {
      return;
    }
    days := ParseDays(clean, dayMatches, ids, next);
  }

  /** The `forEach` over the day markers: each span is parsed and kept when it yields exercises. */
  method ParseDays(clean: string, dayMatches: seq<Hit>, ids: IdSupply, next: nat) returns (days: seq<DayWorkout>)
    requires Increasing(dayMatches, |clean|)
    ensures days == DaysOf(HitValues(dayMatches), SpanDrafts(clean, dayMatches), ids, next)
  {
    days := [];
    ghost var values := HitValues(dayMatches);
    ghost var dss := SpanDrafts(clean, dayMatches);
    var n: nat := next;
    var index: nat := 0;
    while index < |dayMatches|
      invariant 0 <= index <= |dayMatches|
      invariant DaysLoop(days, values, dss, ids, next, n, index)
      decreases |dayMatches| - index
    {
      var dayNumber := dayMatches[index].value;
      var startIndex := dayMatches[index].start;
      var endIndex := if index < |dayMatches| - 1 then dayMatches[index + 1].start else |clean|;
      var dayText := clean[startIndex..endIndex];
      assert dayText == Span(clean, dayMatches, index);
      var exercises := ParseExercises(dayText, ids, n);
      SpanDraftsAt(clean, dayMatches, index);
      assert exercises == Numbered(ParseDraft(ids), n, dss[index]);
      assert dayNumber == values[index];
      ghost var before := days;
      if |exercises| > 0 {
        days := days + [DayWorkout(dayNumber, exercises)];
      }
      ghost var n0, index0 := n, index;
      n, index := n + |exercises|, index + 1;
      DaysLoopStep(before, days, values, dss, ids, next, n0, index0, exercises, n, index);
    }
    assert values[index..] == [] && dss[index..] == [];
  }

  /** Text whose cleaned form has no day marker gives no days. */
  lemma PlanParseNoMarker(text: string, ids: IdSupply, next: nat)
    requires forall p :: 0 <= p <= |CleanText(text)| ==> MarkerAt(DayMarker, CleanText(text), p).None?
    ensures PlanParse(text, ids, next) == []
  {
    MatchAllEmptyIff(DayMarker, CleanText(text));
  }

  /** The empty text gives no days. */
  lemma PlanParseEmpty(ids: IdSupply, next: nat)
    ensures PlanParse("", ids, next) == []
  {
    assert ReplaceCrLf("") == "" && CollapseBlankLines("") == "";
    TrimOfTrimmed("");
    PlanParseNoMarker("", ids, next);
  }

  /** Text written with CR LF line endings parses exactly like the same text with LF. */
  lemma PlanParseIgnoresCrLf(t: string, ids: IdSupply, next: nat)
    requires '\r' !in t
    ensures PlanParse(WithCrLf(t), ids, next) == PlanParse(t, ids, next)
  {
    CleanTextIgnoresCrLf(t);
  }

  /** Exercises parsed from drafts in order, whatever their ids. */
  predicate ParsedFrom(ex: seq<Exercise>, ds: seq<Draft>) {
    |ex| == |ds| && forall e :: 0 <= e < |ex| ==> ex[e] == ParseExercise(ds[e].name, ds[e].details, ex[e].id)
  }

  lemma NumberedParsed(ids: IdSupply, next: nat, ds: seq<Draft>)
    ensures ParsedFrom(Numbered(ParseDraft(ids), next, ds), ds)
  {
    var ex := Numbered(ParseDraft(ids), next, ds);
    forall e | 0 <= e < |ex| ensures ex[e] == ParseExercise(ds[e].name, ds[e].details, ex[e].id) {
      var d := ds[e];
      var x := ParseExercise(d.name, d.details, ids(next + e));
      assert ex[e] == ParseDraft(ids)(d, next + e) == x;
      assert x.id == ids(next + e);
    }
  }

  /** The positions, from `i` on, of the spans that have at least one draft, in order. */
  function Kept(dss: seq<seq<Draft>>, i: nat): (js: seq<nat>)
    requires i <= |dss|
    ensures forall k :: 0 <= k < |js| ==> i <= js[k] < |dss| && |dss[js[k]]| > 0
    ensures forall k, l :: 0 <= k < l < |js| ==> js[k] < js[l]
    decreases |dss| - i
  {
    if i == |dss| then []
    else (if |dss[i]| > 0 then [i] else []) + Kept(dss, i + 1)
  }

  /** Every span with drafts from `i` on is kept. */
  lemma {:induction false} KeptComplete(dss: seq<seq<Draft>>, i: nat, j: nat)
    requires i <= j < |dss| && |dss[j]| > 0
    ensures j in Kept(dss, i)
    decreases j - i
  {
    if i < j {
      KeptComplete(dss, i + 1, j);
    }
  }

  /** Relation `P` holds between each item and the position it came from, in order. */
  ghost predicate FollowsAt<T>(P: (T, nat) -> bool, xs: seq<T>, js: seq<nat>) {
    |xs| == |js| && forall k :: 0 <= k < |xs| ==> P(xs[k], js[k])
  }

  /** An optional first item from position 0, then items from positions shifted by one. */
  lemma FollowsPrepend<T>(P: (T, nat) -> bool, head: seq<T>, rest: seq<T>, js: seq<nat>, js1: seq<nat>)
    requires |head| <= 1 && |rest| == |js1| && |js| == |head| + |js1|
    requires |head| == 1 ==> js[0] == 0 && P(head[0], 0)
    requires forall k :: |head| <= k < |js| ==> js[k] == js1[k - |head|] + 1
    requires forall k :: 0 <= k < |js1| ==> P(rest[k], js1[k] + 1)
    ensures FollowsAt(P, head + rest, js)
  {
    forall k | 0 <= k < |js| ensures P((head + rest)[k], js[k]) {
      if k < |head| {
        assert k == 0 && (head + rest)[k] == head[0];
      } else {
        var k1 := k - |head|;
        assert (head + rest)[k] == rest[k1] && js[k] == js1[k1] + 1;
      }
    }
  }

  /** A day taken from span `j`: its number and its exercises, parsed from the span's drafts. */
  ghost function SpanDay(values: seq<int>, dss: seq<seq<Draft>>): (DayWorkout, nat) -> bool {
    (d: DayWorkout, j: nat) => j < |values| && j < |dss| && d.day == values[j] && ParsedFrom(d.exercises, dss[j])
  }

  lemma SpanDayShift(values: seq<int>, dss: seq<seq<Draft>>, rest: seq<DayWorkout>, js1: seq<nat>)
    requires |values| == |dss| > 0
    requires FollowsAt(SpanDay(values[1..], dss[1..]), rest, js1)
    ensures forall k :: 0 <= k < |js1| ==> SpanDay(values, dss)(rest[k], js1[k] + 1)
  {
    forall k | 0 <= k < |js1| ensures SpanDay(values, dss)(rest[k], js1[k] + 1) {
      var j := js1[k];
      assert SpanDay(values[1..], dss[1..])(rest[k], j);
      assert values[1..][j] == values[j + 1] && dss[1..][j] == dss[j + 1];
    }
  }

  /** The first span gives a day exactly when it has drafts, and that day is taken from it. */
  lemma DaysHead(values: seq<int>, dss: seq<seq<Draft>>, ids: IdSupply, next: nat)
    requires |values| == |dss| > 0
    ensures var ex := Numbered(ParseDraft(ids), next, dss[0]);
      var head := if |ex| > 0 then [DayWorkout(values[0], ex)] else [];
      DaysOf(values, dss, ids, next) == head + DaysOf(values[1..], dss[1..], ids, next + |ex|)
      && |head| == (if |dss[0]| > 0 then 1 else 0)
      && (|head| == 1 ==> SpanDay(values, dss)(head[0], 0))
  {
    NumberedParsed(ids, next, dss[0]);
  }

  /** Kept spans: the first one when it has drafts, then those of the rest, shifted. */
  lemma FollowsStep(values: seq<int>, dss: seq<seq<Draft>>, days: seq<DayWorkout>, head: seq<DayWorkout>, rest: seq<DayWorkout>)
    requires |values| == |dss| > 0 && days == head + rest
    requires |head| == (if |dss[0]| > 0 then 1 else 0) && (|head| == 1 ==> SpanDay(values, dss)(head[0], 0))
    requires FollowsAt(SpanDay(values[1..], dss[1..]), rest, Kept(dss[1..], 0))
    ensures FollowsAt(SpanDay(values, dss), days, Kept(dss, 0))
  {
    var js := Kept(dss, 0);
    var js1 := Kept(dss[1..], 0);
    var later := Kept(dss, 1);
    SpanDayShift(values, dss, rest, js1);
    KeptShift(dss, 1);
    var first: seq<nat> := if |head| == 1 then [0] else [];
    assert js == first + later;
    forall k | |head| <= k < |js| ensures js[k] == js1[k - |head|] + 1 {
      assert js[k] == later[k - |head|];
    }
    FollowsPrepend(SpanDay(values, dss), head, rest, js, js1);
  }

  /**
   * One day per span with drafts, in order: the day number is that span's and the
   * exercises are its drafts, parsed.
   */
  lemma {:induction false} DaysFollowSpans(values: seq<int>, dss: seq<seq<Draft>>, ids: IdSupply, next: nat)
    requires |values| == |dss|
    ensures FollowsAt(SpanDay(values, dss), DaysOf(values, dss, ids, next), Kept(dss, 0))
    decreases |values|
  {
    if |values| > 0 {
      var ex := Numbered(ParseDraft(ids), next, dss[0]);
      var head := if |ex| > 0 then [DayWorkout(values[0], ex)] else [];
      DaysHead(values, dss, ids, next);
      DaysFollowSpans(values[1..], dss[1..], ids, next + |ex|);
      FollowsStep(values, dss, DaysOf(values, dss, ids, next), head, DaysOf(values[1..], dss[1..], ids, next + |ex|));
    }
  }

  /** Kept positions of a suffix are those of the whole, shifted. */
  lemma {:induction false} KeptShift(dss: seq<seq<Draft>>, i: nat)
    requires 1 <= i <= |dss|
    ensures |Kept(dss[1..], i - 1)| == |Kept(dss, i)|
    ensures forall k :: 0 <= k < |Kept(dss, i)| ==> Kept(dss[1..], i - 1)[k] + 1 == Kept(dss, i)[k]
    decreases |dss| - i
  {
    if i < |dss| {
      KeptShift(dss, i + 1);
      assert dss[1..][i - 1] == dss[i];
    }
  }

  /**
   * `parseWorkoutPlan` keeps, in order, the day markers of the cleaned text whose spans
   * open at least one exercise: each day has its marker's number and its span's exercises.
   */
  lemma PlanParseFollowsMarkers(text: string, ids: IdSupply, next: nat)
    ensures var clean := CleanText(text);
      var hits := MatchAll(DayMarker, clean);
      Increasing(hits, |clean|)
      && var days := PlanParse(text, ids, next);
      var js := Kept(SpanDrafts(clean, hits), 0);
      |days| == |js|
      && (forall k :: 0 <= k < |js| ==>
        days[k].day == hits[js[k]].value && ParsedFrom(days[k].exercises, DayDrafts(Span(clean, hits, js[k]))))
      && (forall j :: 0 <= j < |hits| && j !in js ==> DayDrafts(Span(clean, hits, j)) == [])
  {
    var clean := CleanText(text);
    MatchAllIncreasing(DayMarker, clean);
    var hits := MatchAll(DayMarker, clean);
    var dss := SpanDrafts(clean, hits);
    var days := DaysOf(HitValues(hits), dss, ids, next);
    var js := Kept(dss, 0);
    DaysFollowSpans(HitValues(hits), dss, ids, next);
    forall k | 0 <= k < |js|
      ensures days[k].day == hits[js[k]].value && ParsedFrom(days[k].exercises, DayDrafts(Span(clean, hits, js[k])))
    {
      assert SpanDay(HitValues(hits), dss)(days[k], js[k]);
      SpanDraftsAt(clean, hits, js[k]);
    }
    forall j | 0 <= j < |hits| && j !in js ensures DayDrafts(Span(clean, hits, j)) == [] {
      SpanDraftsAt(clean, hits, j);
      if |dss[j]| > 0 {
        KeptComplete(dss, 0, j);
      }
    }
  }

  // ----- `formatExerciseForDisplay` -----

  function KindPrefix(k: ExerciseKind): string {
    match k
    case Superset => "Суперсет - "
    case Dropset => "Дропсет - "
    case Normal => ""
  }

  /** The second line of the display text: sets and reps. */
  function SetsLine(e: Exercise): string {
    NatText(e.sets) + " підходи по " + e.reps + " "
  }

  /** `formatExerciseForDisplay`: name line, then the sets-and-reps line, the kind as a prefix. */
  function FormatExerciseForDisplay(e: Exercise): string {
    KindPrefix(e.kind) + (e.name + "\n" + SetsLine(e))
  }

  /** The display text is two lines: the kind prefix with the name, then the sets line. */
  lemma FormatLines(e: Exercise)
    requires '\n' !in e.name && '\n' !in e.reps
    ensures Split(FormatExerciseForDisplay(e), '\n') == [KindPrefix(e.kind) + e.name, SetsLine(e)]
  {
    var l1 := KindPrefix(e.kind) + e.name;
    var l2 := SetsLine(e);
    assert FormatExerciseForDisplay(e) == l1 + "\n" + l2;
    assert '\n' !in NatText(e.sets) by {
      assert forall i :: 0 <= i < |NatText(e.sets)| ==> IsDigit(NatText(e.sets)[i]);
    }
    assert '\n' !in " підходи по " && '\n' !in " ";
    assert '\n' !in l1 && '\n' !in l2;
    SplitTwoLines(l1, l2);
  }

  /** Parsing the sets line back gives the exercise's set count. */
  lemma FormatSetsRoundTrip(e: Exercise)
    ensures SetsCount(SetsLine(e)) == e.sets
  {
    var t := NatText(e.sets);
    var d := SetsLine(e);
    var f := |t| + 1;
    assert forall i :: 0 <= i < |t| ==> d[i] == t[i];
    assert d[|t|] == ' ';
    assert d[f..f + 6] == "підход";
    assert Lower("підход") == "підход";
    SetsCountAfterWords(d, 0, |t|, f);
    assert d[0..|t|] == t;
  }

  /**
   * Parsing the sets line back does not give the reps: the first run of digits is the set
   * count, so the reps read back are the set count's digits.
   */
  lemma FormatRepsReadBack(e: Exercise)
    ensures RepsText(SetsLine(e)) == NatText(e.sets)
  {
    var t := NatText(e.sets);
    var d := SetsLine(e);
    assert forall i :: 0 <= i < |t| ==> d[i] == t[i] && IsDigit(t[i]);
    assert d[|t|] == ' ';
    RepsIsFirstRun(d);
    FirstInIs(d, 0, 0, DigitsOrHyphens);
    RunEndIs(d, 0, |t|, DigitsOrHyphens);
    assert d[0..|t|] == t;
  }
}
