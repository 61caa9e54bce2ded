/**
 * The line grammar of the history parser: the exercise header
 * `/^(\d+)\.\s+(.+?)(?:\s*[–-]\s*.*)?$/` with its lazy name group, the check that a
 * header-shaped line really names an exercise, and the set lines `100 кг × 12` and `20`
 * read by `setMatch` and accepted by `isValidSet`.
 */
module HistoryLines {
  import opened Wrappers
  import opened Text
  import opened Segment
  import opened Blocks

  // ----- `/^(\d+)\.\s+(.+?)(?:\s*[–-]\s*.*)?$/` -----

  /** `[–-]`: an en dash or a hyphen. */
  predicate IsDash(c: char) {
    c == '–' || c == '-'
  }

  /**
   * `\s*[–-]\s*.*` from `g` to the end of the line: the spaces run up to the dash, and what
   * follows the spaces after it holds no line terminator.
   */
  predicate DashTail(u: string, g: nat)
    requires g <= |u|
  {
    var k := RunEnd(u, g, Spaces);
    k < |u| && IsDash(u[k]) && NoLineTerminator(u[RunEnd(u, k + 1, Spaces)..])
  }

  /** What may follow the name group at `g`: the optional dash part, then `$`. */
  predicate TailAt(u: string, g: nat)
    requires g <= |u|
  {
    DashTail(u, g) || g == |u|
  }

  /**
   * The lazy `(.+?)` started at `st`, tried with end `g`, `g + 1`, …: the first end after
   * which the tail matches, as long as the group has met no line terminator.
   */
  function LazyEnd(u: string, st: nat, g: nat): (r: Option<nat>)
    requires st < g <= |u|
    requires forall i :: st <= i < g - 1 ==> !IsLineTerminator(u[i])
    ensures r.Some? ==> g <= r.value <= |u| && TailAt(u, r.value)
    ensures r.Some? ==> forall i :: st <= i < r.value ==> !IsLineTerminator(u[i])
    ensures r.Some? ==> forall h :: g <= h < r.value ==> !TailAt(u, h)
    decreases |u| - g
  {
    if IsLineTerminator(u[g - 1]) then None
    else if TailAt(u, g) then Some(g)
      else if g == |u| then None
      else LazyEnd(u, st, g + 1)
  }

  /**
   * The name group after `\s+`: greedy `\s+` gives back spaces one at a time (group starts
   * `j`, `j - 1`, …, `lo`) until the lazy group finds an end.
   */
  function HeaderGroupFrom(u: string, lo: nat, j: nat): (r: Option<string>)
    requires lo <= j <= |u|
    ensures r.Some? ==> |r.value| > 0 && NoLineTerminator(r.value)
    decreases j - lo
  {
    if j < |u| && LazyEnd(u, j, j + 1).Some? then
      var e := LazyEnd(u, j, j + 1).value;
      assert forall i :: 0 <= i < e - j ==> u[j..e][i] == u[j + i];
      Some(u[j..e])
    else if j == lo then None
    else HeaderGroupFrom(u, lo, j - 1)
  }

  /** Group 2 of the header pattern on a line: the exercise name, possibly with spaces around it. */
  function HeaderGroup(line: string): (r: Option<string>)
    ensures r.Some? ==> |r.value| > 0 && NoLineTerminator(r.value)
    ensures r.Some? ==> |line| > 0 && IsDigit(line[0])
  {
    var d := RunEnd(line, 0, Digits);
    if d == 0 || d == |line| || line[d] != '.' then None
    else
      var a := d + 1;
      var e := RunEnd(line, a, Spaces);
      if e == a then None else HeaderGroupFrom(line, a + 1, e)
  }

  /** The lazy group ends at the first end `h` from `g` on after which the tail matches. */
  lemma {:induction false} LazyEndIs(u: string, st: nat, g: nat, h: nat)
    requires st < g <= h <= |u|
    requires forall i :: st <= i < h ==> !IsLineTerminator(u[i])
    requires forall q :: g <= q < h ==> !TailAt(u, q)
    requires TailAt(u, h)
    ensures LazyEnd(u, st, g) == Some(h)
    decreases h - g
  {
    if g < h {
      assert !TailAt(u, g);
      LazyEndIs(u, st, g + 1, h);
    }
  }

  /**
   * Digits up to `d`, the dot, spaces up to `e`, and a name from `e` to `h` that starts
   * with a non-space: the name is the group when `h` is the first place the tail matches.
   */
  lemma HeaderAt(line: string, d: nat, e: nat, h: nat)
    requires 0 < d && d + 1 < e < h <= |line|
    requires forall i :: 0 <= i < d ==> IsDigit(line[i])
    requires line[d] == '.'
    requires forall i :: d + 1 <= i < e ==> IsSpace(line[i])
    requires !IsSpace(line[e])
    requires forall i :: e <= i < h ==> !IsLineTerminator(line[i])
    requires forall q :: e < q < h ==> !TailAt(line, q)
    requires TailAt(line, h)
    ensures HeaderGroup(line) == Some(line[e..h])
  {
    RunEndIs(line, 0, d, Digits);
    RunEndIs(line, d + 1, e, Spaces);
    LazyEndIs(line, e, e + 1, h);
  }

  /** Inside a name that ends with a non-space and holds no dash, the tail cannot start. */
  lemma NoTailInName(line: string, e: nat, h: nat, q: nat)
    requires e < q < h <= |line|
    requires !IsSpace(line[h - 1])
    requires forall i :: e <= i < h ==> !IsDash(line[i])
    ensures !TailAt(line, q)
  {
    assert !InClass(Spaces, line[h - 1]);
  }

  predicate Trimmed(s: string) {
    |s| > 0 && !IsSpace(s[0]) && !IsSpace(s[|s| - 1])
  }

  predicate NoDash(s: string) {
    forall i :: 0 <= i < |s| ==> !IsDash(s[i])
  }

  predicate AllSpaces(s: string) {
    forall i :: 0 <= i < |s| ==> IsSpace(s[i])
  }

  /** `<digits>.<spaces>` up to `e` at the start of a line. */
  lemma NumberDotSpaces(ds: string, sp: string, tail: string)
    requires |ds| > 0 && AllDigits(ds) && |sp| > 0 && AllSpaces(sp)
    ensures var line := ds + "." + sp + tail;
      (forall i :: 0 <= i < |ds| ==> IsDigit(line[i])) && line[|ds|] == '.'
      && (forall i :: |ds| + 1 <= i < |ds| + 1 + |sp| ==> IsSpace(line[i]))
      && line[|ds| + 1 + |sp|..] == tail
  {
    var line := ds + "." + sp + tail;
    assert forall i :: 0 <= i < |ds| ==> line[i] == ds[i];
    assert forall i :: |ds| + 1 <= i < |ds| + 1 + |sp| ==> line[i] == sp[i - |ds| - 1];
  }

  /** `<digits>.<spaces><name><spaces><dash><rest>`: the group is the name, up to the first dash. */
  lemma HeaderBeforeDash(ds: string, sp: string, name: string, sep: string, dash: char, rest: string)
    requires |ds| > 0 && AllDigits(ds) && |sp| > 0 && AllSpaces(sp)
    requires Trimmed(name) && NoLineTerminator(name) && NoDash(name)
    requires AllSpaces(sep) && IsDash(dash) && NoLineTerminator(rest)
    ensures HeaderGroup(ds + "." + sp + (name + (sep + [dash] + rest))) == Some(name)
  {
    var tail := sep + [dash] + rest;
    var line := ds + "." + sp + (name + tail);
    var e := |ds| + 1 + |sp|;
    var h := e + |name|;
    NumberDotSpaces(ds, sp, name + tail);
    assert line[e..h] == name && line[h..] == tail by {
      assert line[e..][..|name|] == name;
      assert line[e..][|name|..] == tail;
    }
    DashTailAt(line, h, sep, dash, rest);
    NameAt(line, |ds|, e, h, name);
  }

  /** After the number, the dot and the spaces, a name that the tail follows at `h` is the group. */
  lemma NameAt(line: string, d: nat, e: nat, h: nat, name: string)
    requires 0 < d && d + 1 < e <= h <= |line|
    requires forall i :: 0 <= i < d ==> IsDigit(line[i])
    requires line[d] == '.'
    requires forall i :: d + 1 <= i < e ==> IsSpace(line[i])
    requires line[e..h] == name && Trimmed(name) && NoLineTerminator(name) && NoDash(name)
    requires TailAt(line, h)
    ensures HeaderGroup(line) == Some(name)
  {
    assert forall i :: e <= i < h ==> line[i] == name[i - e];
    forall q | e < q < h ensures !TailAt(line, q) {
      NoTailInName(line, e, h, q);
    }
    HeaderAt(line, d, e, h);
  }

  /** Spaces, a dash and a text without line terminators from `h` to the end: the header's tail. */
  lemma DashTailAt(line: string, h: nat, sep: string, dash: char, rest: string)
    requires h <= |line| && line[h..] == sep + [dash] + rest
    requires AllSpaces(sep) && IsDash(dash) && NoLineTerminator(rest)
    ensures TailAt(line, h)
  {
    var k := h + |sep|;
    assert forall i :: h <= i < k ==> line[i] == line[h..][i - h];
    assert line[k] == line[h..][|sep|];
    assert forall i :: k + 1 <= i < |line| ==> line[i] == rest[i - k - 1] by {
      assert forall i :: k + 1 <= i < |line| ==> line[i] == line[h..][i - h];
    }
    RunEndIs(line, h, k, Spaces);
  }

  /** `<digits>.<spaces><name>` with no dash in the name: the group is the whole name. */
  lemma HeaderWithoutDash(ds: string, sp: string, name: string)
    requires |ds| > 0 && AllDigits(ds) && |sp| > 0 && AllSpaces(sp)
    requires Trimmed(name) && NoLineTerminator(name) && NoDash(name)
    ensures HeaderGroup(ds + "." + sp + name) == Some(name)
  {
    var line := ds + "." + sp + name;
    var e := |ds| + 1 + |sp|;
    NumberDotSpaces(ds, sp, name);
    assert forall i :: e <= i < |line| ==> line[i] == name[i - e] by {
      assert forall i :: 0 <= i < |name| ==> line[e..][i] == name[i];
    }
    assert line[e..|line|] == name;
    forall q | e < q < |line| ensures !TailAt(line, q) {
      NoTailInName(line, e, |line|, q);
    }
    HeaderAt(line, |ds|, e, |line|);
  }

  /** `/^\d+\s*кг/`, case-sensitive. */
  predicate DigitsThenKg(line: string) {
    var d := RunEnd(line, 0, Digits);
    d > 0 && OccursAt(line, RunEnd(line, d, Spaces), "кг")
  }

  /** `isExerciseName`: a header-shaped line names an exercise unless it looks like a set. */
  predicate IsExerciseName(line: string) {
    !Contains(line, "кг") && !Contains(line, " × ") && !(|line| > 0 && AllDigits(line)) && !DigitsThenKg(line)
  }

  /** On a header-shaped line only the two `includes` tests of `isExerciseName` can fail. */
  lemma HeaderNameCheck(line: string)
    requires HeaderGroup(line).Some?
    ensures IsExerciseName(line) <==> !Contains(line, "кг") && !Contains(line, " × ")
  {
    var d := RunEnd(line, 0, Digits);
    assert line[d] == '.';
    assert !AllDigits(line) by {
      assert !IsDigit(line[d]);
    }
    RunEndIs(line, d, d, Spaces);
  }

  // ----- set lines -----

  /** A set as a line writes it: the weight (0 when none is written) and the repetitions. */
  datatype SetLine = SetLine(weight: real, reps: nat)

  /** `\d+(?:[.,]\d+)?`: integer digits, fraction digits (none without a separator), and the end. */
  datatype Number = Number(intPart: string, fraction: string, end: nat)

  function NumberAt(s: string, j: nat): (r: Option<Number>)
    requires j <= |s|
    ensures r.Some? ==> j < r.value.end <= |s|
  {
    var a := RunEnd(s, j, Digits);
    if a == j then None
    else if a < |s| && (s[a] == '.' || s[a] == ',') && RunEnd(s, a + 1, Digits) > a + 1 then
      Some(Number(s[j..a], s[a + 1..RunEnd(s, a + 1, Digits)], RunEnd(s, a + 1, Digits)))
    else Some(Number(s[j..a], "", a))
  }

  /** `\s*кг\s*[×x]\s*` at `j` (case-insensitive): the position after it. */
  function TimesAt(s: string, j: nat): (r: Option<nat>)
    requires j <= |s|
    ensures r.Some? ==> j + 3 <= r.value <= |s|
  {
    var b := RunEnd(s, j, Spaces);
    if !MatchesAt(s, b, "кг") then None
    else
      var c := RunEnd(s, b + 2, Spaces);
      if c < |s| && (Fold(s[c]) == '×' || Fold(s[c]) == 'x') then Some(RunEnd(s, c + 1, Spaces)) else None
  }

  /** `(\d+)(?:\s*$|$)` at `j`: the end of the digits, when only spaces follow them. */
  function TrailingReps(s: string, j: nat): (r: Option<nat>)
    requires j <= |s|
    ensures r.Some? ==> j < r.value <= |s|
  {
    var e := RunEnd(s, j, Digits);
    if e > j && RunEnd(s, e, Spaces) == |s| then Some(e) else None
  }

  /** The captures of `setMatch`: the weight when the optional group took part, and the reps digits. */
  datatype SetCapture = SetCapture(weight: Option<Number>, reps: string)

  /** `/^(?:(\d+(?:[.,]\d+)?)\s*кг\s*[×x]\s*)?(\d+)(?:\s*$|$)/i`: the optional weight group is tried first. */
  function SetMatch(s: string): Option<SetCapture> {
    var w := NumberAt(s, 0);
    var t := if w.Some? then TimesAt(s, w.value.end) else None;
    var viaWeight := if t.Some? then TrailingReps(s, t.value) else None;
    if viaWeight.Some? then
      Some(SetCapture(w, s[t.value..viaWeight.value]))
    else
      var bare := TrailingReps(s, 0);
      if bare.Some? then
        Some(SetCapture(None, s[..bare.value]))
      else None
  }

  /** `/^\d+$/`. */
  predicate BareReps(s: string) {
    |s| > 0 && AllDigits(s)
  }

  /** `/^\d+(?:[.,]\d+)?\s*кг\s*[×x]\s*\d+$/i`. */
  predicate WeightedSet(s: string) {
    var w := NumberAt(s, 0);
    w.Some? && var t := TimesAt(s, w.value.end);
    t.Some? && t.value < |s| && RunEnd(s, t.value, Digits) == |s|
  }

  /** `isValidSet`: the line matched `setMatch` and is a bare number or a full weight-and-reps line. */
  predicate IsValidSet(s: string) {
    SetMatch(s).Some? && (BareReps(s) || WeightedSet(s))
  }

  /** `parseFloat` of the weight group with its comma made a dot, or 0 without a weight group. */
  function WeightOf(m: SetCapture): real {
    if m.weight.Some? then DecimalValue(m.weight.value.intPart, m.weight.value.fraction) else 0.0
  }

  /** The set a line records, read from the `setMatch` captures when `isValidSet` holds. */
  function SetOf(s: string): Option<SetLine> {
    if IsValidSet(s) then Some(SetLine(WeightOf(SetMatch(s).value), DigitsValue(SetMatch(s).value.reps))) else None
  }

  /**
   * A line records a set exactly when it is a bare number or a full weight-and-reps line;
   * a bare number is that many reps with no weight, a full line gives its weight and reps
   * (the captures of `setMatch` agree with the shape `isValidSet` checks).
   */
  lemma SetOfMeaning(s: string)
    ensures SetOf(s).Some? <==> BareReps(s) || WeightedSet(s)
    ensures BareReps(s) ==> SetOf(s) == Some(SetLine(0.0, DigitsValue(s)))
    ensures WeightedSet(s) ==>
      var w := NumberAt(s, 0).value;
      var t := TimesAt(s, w.end).value;
      SetOf(s) == Some(SetLine(DecimalValue(w.intPart, w.fraction), DigitsValue(s[t..])))
  {
    if BareReps(s) {
      RunEndIs(s, 0, |s|, Digits);
      assert NumberAt(s, 0).value.end == |s|;
      assert TimesAt(s, |s|).None?;
      RunEndIs(s, |s|, |s|, Spaces);
      assert s[..|s|] == s;
    } else if WeightedSet(s) {
      var w := NumberAt(s, 0).value;
      var t := TimesAt(s, w.end).value;
      RunEndIs(s, |s|, |s|, Spaces);
      assert TrailingReps(s, t) == Some(|s|);
      assert s[t..|s|] == s[t..];
    }
  }

  /** The weight as written: integer digits, then the separator and the fraction when there is one. */
  function WeightText(intPart: string, sep: char, fraction: string): string {
    if |fraction| == 0 then intPart else intPart + [sep] + fraction
  }

  /** The weight at the start of a written set line reads back as its integer and fraction digits. */
  lemma NumberOfWeightText(intPart: string, sep: char, fraction: string, s: string)
    requires |intPart| > 0 && AllDigits(intPart) && AllDigits(fraction) && (sep == '.' || sep == ',')
    requires var n := |WeightText(intPart, sep, fraction)|;
      n < |s| && s[..n] == WeightText(intPart, sep, fraction) && !IsDigit(s[n]) && s[n] != '.' && s[n] != ','
    ensures NumberAt(s, 0) == Some(Number(intPart, fraction, |WeightText(intPart, sep, fraction)|))
  {
    var w := WeightText(intPart, sep, fraction);
    var a := |intPart|;
    assert forall i :: 0 <= i < |w| ==> s[i] == w[i] by {
      forall i | 0 <= i < |w| ensures s[i] == w[i] {
        assert s[..|w|][i] == s[i];
      }
    }
    if |fraction| == 0 {
      RunEndIs(s, 0, a, Digits);
      assert s[0..a] == intPart;
    } else {
      assert forall i :: 0 <= i < a ==> w[i] == intPart[i];
      assert w[a] == sep;
      RunEndIs(s, 0, a, Digits);
      assert forall i :: a + 1 <= i < |w| ==> w[i] == fraction[i - a - 1];
      RunEndIs(s, a + 1, |w|, Digits);
      assert s[0..a] == w[0..a] == intPart && s[a + 1..|w|] == w[a + 1..|w|] == fraction;
    }
  }

  /** A string whose suffix from `j` is all digits has its digit run from `j` reach the end. */
  lemma DigitsToEnd(s: string, j: nat)
    requires j <= |s| && AllDigits(s[j..])
    ensures RunEnd(s, j, Digits) == |s|
  {
    forall i | j <= i < |s| ensures InClass(Digits, s[i]) {
      assert s[j..][i - j] == s[i];
    }
    RunEndIs(s, j, |s|, Digits);
  }

  /** ` кг × ` followed by a digit is the separator between weight and reps. */
  lemma TimesAtText(s: string, n: nat)
    requires n + 6 < |s| && s[n..n + 6] == " кг × " && IsDigit(s[n + 6])
    ensures TimesAt(s, n) == Some(n + 6)
  {
    assert s[n] == ' ' && s[n + 1] == 'к' && s[n + 2] == 'г' && s[n + 3] == ' ' && s[n + 4] == '×' && s[n + 5] == ' ' by {
      var t := s[n..n + 6];
      assert t[0] == s[n] && t[1] == s[n + 1] && t[2] == s[n + 2] && t[3] == s[n + 3] && t[4] == s[n + 4] && t[5] == s[n + 5];
    }
    RunEndIs(s, n, n + 1, Spaces);
    assert s[n + 1..n + 3] == "кг";
    assert Lower("кг") == "кг";
    RunEndIs(s, n + 3, n + 4, Spaces);
    RunEndIs(s, n + 5, n + 6, Spaces);
  }

  /** `W кг × R` as the formatter and the import example write it gives weight `W` and `R` reps. */
  lemma SetOfWritten(intPart: string, sep: char, fraction: string, reps: string)
    requires |intPart| > 0 && AllDigits(intPart) && AllDigits(fraction) && (sep == '.' || sep == ',')
    requires |reps| > 0 && AllDigits(reps)
    ensures SetOf(WeightText(intPart, sep, fraction) + " кг × " + reps)
         == Some(SetLine(DecimalValue(intPart, fraction), DigitsValue(reps)))
  {
    var w := WeightText(intPart, sep, fraction);
    var s := w + " кг × " + reps;
    var n := |w|;
    assert s[..n] == w && s[n] == ' ';
    NumberOfWeightText(intPart, sep, fraction, s);
    assert s[n..n + 6] == " кг × " && s[n + 6..] == reps;
    TimesAtText(s, n);
    DigitsToEnd(s, n + 6);
    assert WeightedSet(s);
    SetOfMeaning(s);
  }

  /** A bare number is that many reps without weight. */
  lemma SetOfBareSample()
    ensures SetOf("20") == Some(SetLine(0.0, 20))
  {
    SetOfMeaning("20");
    assert DigitsValue("20") == 20 by {
      assert "20"[..1] == "2";
    }
  }

  /** A full weight-and-reps line is not header-shaped: its digits are not followed by a dot and a space. */
  lemma WeightedIsNoHeader(s: string)
    requires WeightedSet(s)
    ensures HeaderGroup(s).None?
  {
    var d := RunEnd(s, 0, Digits);
    DotWithoutFraction(s);
    if d < |s| && s[d] == '.' {
      assert InClass(Digits, s[d + 1]);
      RunEndIs(s, d + 1, d + 1, Spaces);
    }
  }

  /** Digits and a dot with no digit after it are not a weight followed by `кг`. */
  lemma DotWithoutFraction(s: string)
    ensures var d := RunEnd(s, 0, Digits);
      d < |s| && s[d] == '.' && RunEnd(s, d + 1, Digits) == d + 1 ==> !WeightedSet(s)
  {
    var d := RunEnd(s, 0, Digits);
    if d < |s| && s[d] == '.' && RunEnd(s, d + 1, Digits) == d + 1 && d > 0 {
      assert NumberAt(s, 0).value.end == d;
      RunEndIs(s, d, d, Spaces);
      DotIsNoKg(s, d);
      assert TimesAt(s, d).None?;
    }
  }

  lemma DotIsNoKg(s: string, d: nat)
    requires d < |s| && s[d] == '.'
    ensures !MatchesAt(s, d, "кг")
  {
    FoldAt(s, d, "кг", 0);
  }

  /** A line that records a set is never header-shaped, so the set branch sees every set. */
  lemma SetIsNoHeader(s: string)
    requires SetOf(s).Some?
    ensures HeaderGroup(s).None?
  {
    SetOfMeaning(s);
    if WeightedSet(s) {
      WeightedIsNoHeader(s);
    } else {
      RunEndIs(s, 0, |s|, Digits);
    }
  }

  // ----- a line as the loop sees it -----

  /**
   * A trimmed line opens an exercise when it is header-shaped and names one (the name is the
   * group, trimmed); a header-shaped line that looks like a set is ignored; any other line
   * adds a set when it records one.
   */
  function HistoryTag(raw: string): Tagged<SetLine> {
    var line := Trim(raw);
    match HeaderGroup(line)
    case Some(g) => if IsExerciseName(line) then Open(Trim(g)) else Skip
    case None => if |line| > 0 && SetOf(line).Some? then Item(SetOf(line).value) else Skip
  }

  function HistoryTags(lines: seq<string>): (ts: seq<Tagged<SetLine>>)
    ensures |ts| == |lines|
    decreases |lines|
  {
    if |lines| == 0 then [] else [HistoryTag(lines[0])] + HistoryTags(lines[1..])
  }

  /** How a line that is already trimmed and header-shaped is tagged. */
  lemma TagOfHeader(line: string)
    requires Trim(line) == line && HeaderGroup(line).Some?
    ensures IsExerciseName(line) ==> HistoryTag(line) == Open(Trim(HeaderGroup(line).value))
    ensures !IsExerciseName(line) ==> HistoryTag(line) == Skip
  {
  }

  /** A typed header opens an exercise named by the text before its first dash. */
  lemma HeaderLineOpens(ds: string, name: string, rest: string)
    requires |ds| > 0 && AllDigits(ds)
    requires Trimmed(name) && NoLineTerminator(name) && NoDash(name)
    requires NoLineTerminator(rest) && |rest| > 0 && !IsSpace(rest[|rest| - 1])
    requires var line := ds + ". " + name + " – " + rest; !Contains(line, "кг") && !Contains(line, " × ")
    ensures HistoryTag(ds + ". " + name + " – " + rest) == Open(name)
  {
    var line := ds + ". " + name + " – " + rest;
    assert HeaderGroup(line) == Some(name) by {
      assert line == ds + "." + " " + (name + (" " + ['–'] + (" " + rest)));
      assert NoLineTerminator(" " + rest) by {
        assert forall i :: 1 <= i < |" " + rest| ==> (" " + rest)[i] == rest[i - 1];
      }
      HeaderBeforeDash(ds, " ", name, " ", '–', " " + rest);
    }
    assert Trim(line) == line by {
      assert line[0] == ds[0] && line[|line| - 1] == rest[|rest| - 1];
      TrimOfTrimmed(line);
    }
    TrimOfTrimmed(name);
    HeaderNameCheck(line);
    TagOfHeader(line);
  }

  /** A header-shaped line whose text holds `кг` is ignored rather than opening an exercise. */
  lemma HeaderWithWeightIgnored(ds: string, name: string)
    requires |ds| > 0 && AllDigits(ds)
    requires Trimmed(name) && NoLineTerminator(name) && NoDash(name) && Contains(name, "кг")
    ensures HistoryTag(ds + ". " + name) == Skip
  {
    var line := ds + ". " + name;
    TypedHeaderShape(ds, name);
    assert Contains(line, "кг") by {
      var p :| 0 <= p <= |name| && OccursAt(name, p, "кг");
      OccursAtShift(ds + ". ", name, p, "кг");
    }
    assert !IsExerciseName(line);
    TagOfHeader(line);
  }

  /** A typed header without a dash is trimmed and header-shaped. */
  lemma TypedHeaderShape(ds: string, name: string)
    requires |ds| > 0 && AllDigits(ds)
    requires Trimmed(name) && NoLineTerminator(name) && NoDash(name)
    ensures var line := ds + ". " + name; Trim(line) == line && HeaderGroup(line).Some?
  {
    var line := ds + ". " + name;
    assert HeaderGroup(line).Some? by {
      assert line == ds + "." + " " + name;
      HeaderWithoutDash(ds, " ", name);
    }
    assert line[0] == ds[0] && line[|line| - 1] == name[|name| - 1];
    TrimOfTrimmed(line);
  }
}
