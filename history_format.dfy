/**
 * `formatHistoryWorkout`: a parsed workout written back as text, one line for the date,
 * one for the day, and for each exercise a numbered header, one indented line per set and
 * a blank line; and the round trip: the history parser, given that text as a day, reads
 * back every exercise with its name and its sets.
 */
module HistoryFormat {
  import opened Wrappers
  import opened Text
  import opened Segment
  import opened Types
  import opened Blocks
  import opened HistoryLines
  import opened HistoryParser

  // ----- the text as lines -----

  /** Lines each ended by a line feed, as the formatter's `result +=` steps write them. */
  function Terminated(lines: seq<string>): string
    decreases |lines|
  {
    if |lines| == 0 then "" else lines[0] + "\n" + Terminated(lines[1..])
  }

  lemma {:induction false} TerminatedAppend(a: seq<string>, b: seq<string>)
    ensures Terminated(a + b) == Terminated(a) + Terminated(b)
    decreases |a|
  {
    if |a| == 0 {
      assert a + b == b;
    } else {
      assert (a + b)[1..] == a[1..] + b;
      TerminatedAppend(a[1..], b);
    }
  }

  /** One more line, with its line feed, at the end. */
  lemma TerminatedPush(lines: seq<string>, x: string)
    ensures Terminated(lines + [x]) == Terminated(lines) + x + "\n"
  {
    TerminatedAppend(lines, [x]);
    assert Terminated([x]) == x + "\n" + Terminated([]);
  }

  /** Terminated lines are the lines and an empty last piece, joined by line feeds. */
  lemma {:induction false} TerminatedIsJoin(lines: seq<string>)
    ensures Terminated(lines) == Join(lines + [""], '\n')
    decreases |lines|
  {
    if |lines| > 0 {
      assert (lines + [""])[1..] == lines[1..] + [""];
      TerminatedIsJoin(lines[1..]);
    }
  }

  predicate NoLineFeeds(lines: seq<string>) {
    forall i :: 0 <= i < |lines| ==> '\n' !in lines[i]
  }

  /** `split('\n')` of terminated lines gives the lines back, then the empty piece after the last line feed. */
  lemma SplitTerminated(lines: seq<string>)
    requires NoLineFeeds(lines)
    ensures Split(Terminated(lines), '\n') == lines + [""]
  {
    TerminatedIsJoin(lines);
    assert forall i :: 0 <= i < |lines + [""]| ==> '\n' !in (lines + [""])[i] by {
      forall i | 0 <= i < |lines + [""]| ensures '\n' !in (lines + [""])[i] {
        if i < |lines| {
          assert (lines + [""])[i] == lines[i];
        }
      }
    }
    SplitJoin(lines + [""], '\n');
  }

  // ----- what `formatHistoryWorkout` writes -----

  /** A set's line without its line feed: `   W кг × R ` with a positive weight, `   R ` otherwise. */
  function SetLineText(s: ExerciseSet, weightText: real -> string): string {
    if s.weight > 0.0 then "   " + weightText(s.weight) + " кг × " + IntText(s.reps) + " "
    else "   " + IntText(s.reps) + " "
  }

  function SetLines(sets: seq<ExerciseSet>, weightText: real -> string): (r: seq<string>)
    ensures |r| == |sets|
    ensures forall k :: 0 <= k < |sets| ==> r[k] == SetLineText(sets[k], weightText)
  {
    seq(|sets|, k requires 0 <= k < |sets| => SetLineText(sets[k], weightText))
  }

  /** `${idx + 1}. ${exercise.name}`. */
  function HeaderText(idx: nat, name: string): string {
    NatText(idx + 1) + ". " + name
  }

  /** An exercise's header, its set lines and the blank line after them. */
  function ExerciseLines(e: CompletedExercise, idx: nat, weightText: real -> string): seq<string> {
    [HeaderText(idx, e.name)] + SetLines(e.sets, weightText) + [""]
  }

  /** The lines of the first `k` exercises. */
  function ExercisesLines(exs: seq<CompletedExercise>, weightText: real -> string, k: nat): seq<string>
    requires k <= |exs|
    decreases k
  {
    if k == 0 then [] else ExercisesLines(exs, weightText, k - 1) + ExerciseLines(exs[k - 1], k - 1, weightText)
  }

  /** The date line, the day line, a blank line, then the exercises. */
  function WorkoutLines(w: HistoryWorkout, dateText: string, weightText: real -> string): seq<string> {
    ["Дата: " + dateText, "День " + IntText(w.dayNumber), ""] + ExercisesLines(w.exercises, weightText, |w.exercises|)
  }

  /**
   * The text `formatHistoryWorkout` returns. The date as `toLocaleDateString('uk-UA')`
   * writes it and the weights as JavaScript writes numbers are parameters.
   */
  function FormattedWorkout(w: HistoryWorkout, dateText: string, weightText: real -> string): string {
    Terminated(WorkoutLines(w, dateText, weightText))
  }

  lemma TakeOneMore<T>(xs: seq<T>, j: nat)
    requires j < |xs|
    ensures xs[..j + 1] == xs[..j] + [xs[j]]
  {
  }

  /** The two header lines as the formatter writes them. */
  lemma HeadWritten(d: string, day: string)
    ensures "Дата: " + d + "\n" + "День " + day + "\n\n" == Terminated(["Дата: " + d, "День " + day, ""])
  {
    var h := ["Дата: " + d, "День " + day, ""];
    assert h[1..][1..][1..] == [];
    assert Terminated(h[1..][1..]) == "\n" by {
      assert h[1..][1..] == [""];
    }
    assert Terminated(h[1..]) == "День " + day + "\n" + "\n";
    assert "\n\n" == "\n" + "\n";
  }

  lemma SetLineWritten(r: string, a: string, b: string)
    ensures r + "   " + a + " кг × " + b + " \n" == r + ("   " + a + " кг × " + b + " ") + "\n"
  {
    assert " \n" == " " + "\n";
  }

  lemma BareLineWritten(r: string, b: string)
    ensures r + "   " + b + " \n" == r + ("   " + b + " ") + "\n"
  {
    assert " \n" == " " + "\n";
  }

  /** `formatHistoryWorkout`: the header lines, then for each exercise its header, its sets and a blank line. */
  method FormatHistoryWorkout(workout: HistoryWorkout, dateText: string, weightText: real -> string) returns (result: string)
    ensures result == FormattedWorkout(workout, dateText, weightText)
  {
    ghost var head := ["Дата: " + dateText, "День " + IntText(workout.dayNumber), ""];
    result := "Дата: " + dateText + "\n";
    result := result + "День " + IntText(workout.dayNumber) + "\n\n";
    HeadWritten(dateText, IntText(workout.dayNumber));
    var exs := workout.exercises;
    var idx := 0;
    assert head + ExercisesLines(exs, weightText, idx) == head;
    while idx < |exs|
      invariant idx <= |exs|
      invariant result == Terminated(head + ExercisesLines(exs, weightText, idx))
      decreases |exs| - idx
    {
      var exercise := exs[idx];
      ghost var prev := result;
      result := result + HeaderText(idx, exercise.name) + "\n";
      result := WriteSets(result, exercise.sets, weightText);
      result := result + "\n";
      ExerciseWritten(head + ExercisesLines(exs, weightText, idx), prev, exercise, idx, weightText, result);
      ExercisesLinesStep(head, exs, weightText, idx);
      idx := idx + 1;
    }
  }

  lemma ExercisesLinesStep(head: seq<string>, exs: seq<CompletedExercise>, weightText: real -> string, idx: nat)
    requires idx < |exs|
    ensures head + ExercisesLines(exs, weightText, idx + 1)
         == head + ExercisesLines(exs, weightText, idx) + ExerciseLines(exs[idx], idx, weightText)
  {
  }

  /** The inner `forEach`: one line per set, with its weight when it has a positive one. */
  method WriteSets(before: string, sets: seq<ExerciseSet>, weightText: real -> string) returns (result: string)
    ensures result == before + Terminated(SetLines(sets, weightText))
  {
    result := before;
    ghost var setLines := SetLines(sets, weightText);
    var j := 0;
    assert Terminated(setLines[..j]) == "";
    while j < |sets|
      invariant j <= |sets| == |setLines|
      invariant result == before + Terminated(setLines[..j])
      decreases |sets| - j
    {
      var s := sets[j];
      ghost var x := SetLineText(s, weightText);
      ghost var prev := result;
      if s.weight > 0.0 {
        SetLineWritten(prev, weightText(s.weight), IntText(s.reps));
        result := result + "   " + weightText(s.weight) + " кг × " + IntText(s.reps) + " \n";
      } else {
        BareLineWritten(prev, IntText(s.reps));
        result := result + "   " + IntText(s.reps) + " \n";
      }
      SetWritten(before, setLines, j, prev, x, result);
      j := j + 1;
    }
    assert setLines[..j] == setLines;
  }

  lemma SetWritten(before: string, setLines: seq<string>, j: nat, prev: string, x: string, result: string)
    requires j < |setLines| && x == setLines[j]
    requires prev == before + Terminated(setLines[..j]) && result == prev + x + "\n"
    ensures result == before + Terminated(setLines[..j + 1])
  {
    TakeOneMore(setLines, j);
    TerminatedPush(setLines[..j], x);
  }

  /** A header line and the set lines after it, regrouped as one piece. */
  lemma Regroup(p: string, h: string, t: string)
    ensures p + h + "\n" + t + "\n" == p + (h + "\n" + (t + "\n"))
  {
    Associate(p + h, "\n", t);
    Associate(p, h, "\n" + t);
    Associate(h + "\n", t, "\n");
    Associate(h, "\n", t + "\n");
    Associate(p, h + "\n" + t, "\n");
    Associate(h, "\n", t);
  }

  /** An exercise's lines as text: the header, the sets' text and the blank line. */
  lemma ExerciseText(e: CompletedExercise, idx: nat, weightText: real -> string)
    ensures Terminated(ExerciseLines(e, idx, weightText))
         == HeaderText(idx, e.name) + "\n" + (Terminated(SetLines(e.sets, weightText)) + "\n")
  {
    var h := HeaderText(idx, e.name);
    var sl := SetLines(e.sets, weightText);
    var rest := sl + [""];
    assert Terminated(rest) == Terminated(sl) + "\n" by {
      TerminatedPush(sl, "");
    }
    var block := [h] + rest;
    assert block[0] == h && block[1..] == rest;
    assert ExerciseLines(e, idx, weightText) == block;
  }

  lemma ExerciseWritten(lines: seq<string>, prev: string, e: CompletedExercise, idx: nat, weightText: real -> string, result: string)
    requires prev == Terminated(lines)
    requires result == prev + HeaderText(idx, e.name) + "\n" + Terminated(SetLines(e.sets, weightText)) + "\n"
    ensures result == Terminated(lines + ExerciseLines(e, idx, weightText))
  {
    assert result == prev + Terminated(ExerciseLines(e, idx, weightText)) by {
      Regroup(prev, HeaderText(idx, e.name), Terminated(SetLines(e.sets, weightText)));
      ExerciseText(e, idx, weightText);
    }
    TerminatedAppend(lines, ExerciseLines(e, idx, weightText));
  }

  // ----- the round trip, line by line -----

  /** A weight the formatter writes as digits, a dot and digits that read back as the same value. */
  ghost predicate WeightReadsBack(weightText: real -> string, x: real) {
    exists intPart: string, fraction: string ::
      |intPart| > 0 && AllDigits(intPart) && AllDigits(fraction)
      && weightText(x) == WeightText(intPart, '.', fraction) && DecimalValue(intPart, fraction) == x
  }

  /** A set whose line reads back: no negative reps, and no weight or a weight whose text reads back. */
  ghost predicate SetReadsBack(s: ExerciseSet, weightText: real -> string) {
    s.reps >= 0 && (s.weight == 0.0 || (s.weight > 0.0 && WeightReadsBack(weightText, s.weight)))
  }

  /**
   * A name whose header line reads back: one line without surrounding space, without a
   * dash (the header pattern ends the name at the first one), and a header line that the
   * set-like test does not reject.
   */
  ghost predicate NameReadsBack(idx: nat, name: string) {
    Trimmed(name) && NoLineTerminator(name) && NoDash(name)
    && !Contains(HeaderText(idx, name), "кг") && !Contains(HeaderText(idx, name), " × ")
  }

  /** Padding spaces around a trimmed text are what `trim` removes. */
  lemma TrimPadded(pad: string, x: string, post: string)
    requires AllSpaces(pad) && AllSpaces(post) && Trimmed(x)
    ensures Trim(pad + x + post) == x
  {
    var s := pad + x + post;
    var a := |pad|;
    var b := a + |x|;
    assert forall i :: 0 <= i < a ==> InClass(Spaces, s[i]) by {
      assert forall i :: 0 <= i < a ==> s[i] == pad[i];
    }
    assert !IsSpace(s[a]) && !IsSpace(s[b - 1]) by {
      assert s[a] == x[0] && s[b - 1] == x[|x| - 1];
    }
    RunEndIs(s, 0, a, Spaces);
    var r := Trim(s);
    assert |r| > 0;
    assert a + |r| == b;
    assert s[a..b] == x;
  }

  /** The indent and the trailing space of a set line. */
  lemma PadsAreSpaces()
    ensures AllSpaces("   ") && AllSpaces(" ")
  {
    assert forall i :: 0 <= i < 3 ==> "   "[i] == ' ';
  }

  /** A line whose trimmed text records a set, and is not header-shaped, adds that set. */
  lemma TagOfSetText(raw: string, x: string)
    requires Trim(raw) == x && HeaderGroup(x).None? && |x| > 0 && SetOf(x).Some?
    ensures HistoryTag(raw) == Item(SetOf(x).value)
  {
  }

  /** A set's line is tagged with the set's weight (0 when none was written) and reps. */
  lemma SetLineTag(s: ExerciseSet, weightText: real -> string)
    requires SetReadsBack(s, weightText)
    ensures HistoryTag(SetLineText(s, weightText)) == Item(SetLine(s.weight, s.reps))
  {
    var r := NatText(s.reps);
    assert IntText(s.reps) == r;
    if s.weight > 0.0 {
      var intPart, fraction :| |intPart| > 0 && AllDigits(intPart) && AllDigits(fraction)
        && weightText(s.weight) == WeightText(intPart, '.', fraction) && DecimalValue(intPart, fraction) == s.weight;
      WeightedLineTag(SetLineText(s, weightText), WeightText(intPart, '.', fraction), intPart, fraction, r);
    } else {
      BareLineTag(SetLineText(s, weightText), r);
    }
  }

  lemma WeightedLineTag(line: string, w: string, intPart: string, fraction: string, r: string)
    requires |intPart| > 0 && AllDigits(intPart) && AllDigits(fraction) && w == WeightText(intPart, '.', fraction)
    requires |r| > 0 && AllDigits(r)
    requires line == "   " + w + " кг × " + r + " "
    ensures HistoryTag(line) == Item(SetLine(DecimalValue(intPart, fraction), DigitsValue(r)))
  {
    var x := w + " кг × " + r;
    SetOfWritten(intPart, '.', fraction, r);
    assert x[0] == intPart[0] && x[|x| - 1] == r[|r| - 1];
    assert line == "   " + x + " " by {
      Associate("   ", w, " кг × ");
      Associate("   ", w + " кг × ", r);
    }
    PadsAreSpaces();
    TrimPadded("   ", x, " ");
    SetIsNoHeader(x);
    TagOfSetText(line, x);
  }

  lemma BareLineTag(line: string, r: string)
    requires |r| > 0 && AllDigits(r)
    requires line == "   " + r + " "
    ensures HistoryTag(line) == Item(SetLine(0.0, DigitsValue(r)))
  {
    SetOfMeaning(r);
    PadsAreSpaces();
    TrimPadded("   ", r, " ");
    SetIsNoHeader(r);
    TagOfSetText(line, r);
  }

  /** An exercise's header line opens an exercise with that name. */
  lemma HeaderLineTag(idx: nat, name: string)
    requires NameReadsBack(idx, name)
    ensures HistoryTag(HeaderText(idx, name)) == Open(name)
  {
    var ds := NatText(idx + 1);
    var line := HeaderText(idx, name);
    assert HeaderGroup(line) == Some(name) by {
      assert line == ds + "." + " " + name;
      HeaderWithoutDash(ds, " ", name);
    }
    assert Trim(line) == line by {
      assert line[0] == ds[0] && line[|line| - 1] == name[|name| - 1];
      TrimOfTrimmed(line);
    }
    TrimOfTrimmed(name);
    HeaderNameCheck(line);
    TagOfHeader(line);
  }

  /** A line starting with a letter, such as the date and day lines, is neither a header nor a set. */
  lemma LetterLineSkipped(line: string)
    requires |line| > 0 && !IsSpace(line[0]) && !IsDigit(line[0])
    ensures HistoryTag(line) == Skip
  {
    var t := Trim(line);
    assert RunEnd(line, 0, Spaces) == 0;
    assert |t| > 0 && t[0] == line[0];
    assert RunEnd(t, 0, Digits) == 0;
    SetOfMeaning(t);
  }

  lemma BlankLineSkipped()
    ensures HistoryTag("") == Skip
  {
    TrimOfTrimmed("");
  }

  // ----- the round trip, exercise by exercise -----

  /** The line loop's state after the tags `ts`, before the final push. */
  function HistRun(acc: HistAcc, ts: seq<Tagged<SetLine>>): HistAcc
    decreases |ts|
  {
    if |ts| == 0 then acc else HistRun(HistStep(acc, ts[0]), ts[1..])
  }

  lemma {:induction false} HistFoldRun(acc: HistAcc, ts: seq<Tagged<SetLine>>)
    ensures HistFold(acc, ts) == Flush(HistRun(acc, ts))
    decreases |ts|
  {
    if |ts| > 0 {
      HistFoldRun(HistStep(acc, ts[0]), ts[1..]);
    }
  }

  lemma {:induction false} HistRunAppend(acc: HistAcc, a: seq<Tagged<SetLine>>, b: seq<Tagged<SetLine>>)
    ensures HistRun(acc, a + b) == HistRun(HistRun(acc, a), b)
    decreases |a|
  {
    if |a| == 0 {
      assert a + b == b;
    } else {
      assert (a + b)[0] == a[0] && (a + b)[1..] == a[1..] + b;
      HistRunAppend(HistStep(acc, a[0]), a[1..], b);
    }
  }

  lemma {:induction false} HistoryTagsAppend(a: seq<string>, b: seq<string>)
    ensures HistoryTags(a + b) == HistoryTags(a) + HistoryTags(b)
    decreases |a|
  {
    if |a| == 0 {
      assert a + b == b;
    } else {
      var x := [HistoryTag(a[0])];
      assert (a + b)[0] == a[0] && (a + b)[1..] == a[1..] + b;
      assert HistoryTags(a + b) == x + HistoryTags(a[1..] + b);
      HistoryTagsAppend(a[1..], b);
      Associate(x, HistoryTags(a[1..]), HistoryTags(b));
    }
  }

  /** An exercise that reads back: its header does, its sets are numbered 1, 2, … and each set's line reads back. */
  ghost predicate ExerciseReadsBack(e: CompletedExercise, idx: nat, weightText: real -> string) {
    NameReadsBack(idx, e.name) && Logged(e.sets)
    && forall k :: 0 <= k < |e.sets| ==> SetReadsBack(e.sets[k], weightText)
  }

  /** What the parser keeps of an exercise: its name and its sets. */
  function Drafts(exs: seq<CompletedExercise>): (ds: seq<HistoryDraft>)
    ensures |ds| == |exs|
    ensures forall k :: 0 <= k < |exs| ==> ds[k] == HistoryDraft(exs[k].name, exs[k].sets)
  {
    seq(|exs|, k requires 0 <= k < |exs| => HistoryDraft(exs[k].name, exs[k].sets))
  }

  /** The tags of the lines from `j` on: line `j`'s tag, then the tags after it. */
  lemma TagsFrom(lines: seq<string>, j: nat)
    requires j < |lines|
    ensures HistoryTags(lines[j..]) == [HistoryTag(lines[j])] + HistoryTags(lines[j + 1..])
  {
    assert lines[j..][1..] == lines[j + 1..];
  }

  /** Pushing set `j` of a logged list onto the sets before it gives the sets up to it. */
  lemma PushLogged(sets: seq<ExerciseSet>, j: nat)
    requires Logged(sets) && j < |sets| && sets[j].reps >= 0
    ensures PushSet(sets[..j], SetLine(sets[j].weight, sets[j].reps)) == sets[..j + 1]
  {
    assert sets[j] == ExerciseSet(j + 1, sets[j].weight, sets[j].reps);
    TakeOneMore(sets, j);
  }

  /** One set line adds its set to the open exercise. */
  lemma SetLineRun(done: seq<HistoryDraft>, name: string, sets: seq<ExerciseSet>, weightText: real -> string, j: nat)
    requires Logged(sets) && j < |sets| && SetReadsBack(sets[j], weightText)
    ensures HistRun(HistAcc(done, Some(HistoryDraft(name, sets[..j]))), HistoryTags(SetLines(sets, weightText)[j..]))
         == HistRun(HistAcc(done, Some(HistoryDraft(name, sets[..j + 1]))), HistoryTags(SetLines(sets, weightText)[j + 1..]))
  {
    var sl := SetLines(sets, weightText);
    SetLineTag(sets[j], weightText);
    TagsFrom(sl, j);
    PushLogged(sets, j);
  }

  /** The set lines from `j` on add the sets from `j` on to the open exercise. */
  lemma {:induction false} SetLinesRun(done: seq<HistoryDraft>, name: string, sets: seq<ExerciseSet>,
                                       weightText: real -> string, j: nat)
    requires Logged(sets) && forall k :: 0 <= k < |sets| ==> SetReadsBack(sets[k], weightText)
    requires j <= |sets|
    ensures HistRun(HistAcc(done, Some(HistoryDraft(name, sets[..j]))), HistoryTags(SetLines(sets, weightText)[j..]))
         == HistAcc(done, Some(HistoryDraft(name, sets)))
    decreases |sets| - j
  {
    if j == |sets| {
      assert sets[..j] == sets && SetLines(sets, weightText)[j..] == [];
    } else {
      SetLineRun(done, name, sets, weightText, j);
      SetLinesRun(done, name, sets, weightText, j + 1);
    }
  }

  /** An exercise's lines push the open exercise, when it has sets, and leave this one open with all its sets. */
  lemma ExerciseRun(acc: HistAcc, e: CompletedExercise, idx: nat, weightText: real -> string)
    requires ExerciseReadsBack(e, idx, weightText)
    ensures HistRun(acc, HistoryTags(ExerciseLines(e, idx, weightText))) == HistAcc(Flush(acc), Some(HistoryDraft(e.name, e.sets)))
  {
    var h := HeaderText(idx, e.name);
    var sl := SetLines(e.sets, weightText);
    HeaderLineTag(idx, e.name);
    BlankLineSkipped();
    HistoryTagsAppend([h] + sl, [""]);
    HistoryTagsAppend([h], sl);
    assert HistoryTags([h]) == [Open(e.name)];
    assert HistoryTags([""]) == [Skip];
    var started := HistAcc(Flush(acc), Some(HistoryDraft(e.name, [])));
    assert HistRun(acc, [Open(e.name)]) == started;
    HistRunAppend(acc, [Open(e.name)], HistoryTags(sl));
    assert e.sets[..0] == [] && sl[0..] == sl;
    SetLinesRun(Flush(acc), e.name, e.sets, weightText, 0);
    HistRunAppend(acc, [Open(e.name)] + HistoryTags(sl), [Skip]);
  }

  /** The line loop's state after the first `k` exercises' lines: those before the last pushed, the last open. */
  function RunState(exs: seq<CompletedExercise>, k: nat): HistAcc
    requires k <= |exs|
  {
    if k == 0 then HistAcc([], None) else HistAcc(Drafts(exs[..k - 1]), Some(HistoryDraft(exs[k - 1].name, exs[k - 1].sets)))
  }

  /** Pushing the open exercise of that state gives every one of the first `k` exercises. */
  lemma FlushRunState(exs: seq<CompletedExercise>, k: nat)
    requires k <= |exs| && forall j :: 0 <= j < |exs| ==> Logged(exs[j].sets)
    ensures Flush(RunState(exs, k)) == Drafts(exs[..k])
  {
    if k > 0 {
      assert |exs[k - 1].sets| > 0;
      assert Drafts(exs[..k]) == Drafts(exs[..k - 1]) + [HistoryDraft(exs[k - 1].name, exs[k - 1].sets)];
    }
  }

  /** The first `k` exercises' lines take the line loop from its start to `RunState(exs, k)`. */
  ghost predicate Reaches(exs: seq<CompletedExercise>, weightText: real -> string, k: nat)
    requires k <= |exs|
  {
    HistRun(HistAcc([], None), HistoryTags(ExercisesLines(exs, weightText, k))) == RunState(exs, k)
  }

  /** One more exercise's lines move the state from `k` to `k + 1` exercises. */
  lemma ExercisesRunStep(exs: seq<CompletedExercise>, weightText: real -> string, k: nat)
    requires k < |exs| && forall j :: 0 <= j < |exs| ==> ExerciseReadsBack(exs[j], j, weightText)
    requires Reaches(exs, weightText, k)
    ensures Reaches(exs, weightText, k + 1)
  {
    var before := ExercisesLines(exs, weightText, k);
    var lines := ExerciseLines(exs[k], k, weightText);
    assert ExercisesLines(exs, weightText, k + 1) == before + lines;
    HistoryTagsAppend(before, lines);
    HistRunAppend(HistAcc([], None), HistoryTags(before), HistoryTags(lines));
    ExerciseRun(RunState(exs, k), exs[k], k, weightText);
    FlushRunState(exs, k);
  }

  /** After the first `k` exercises' lines, the exercises before the last are pushed and the last is open. */
  lemma {:induction false} ExercisesRun(exs: seq<CompletedExercise>, weightText: real -> string, k: nat)
    requires k <= |exs| && forall j :: 0 <= j < |exs| ==> ExerciseReadsBack(exs[j], j, weightText)
    ensures Reaches(exs, weightText, k)
    decreases k
  {
    if k > 0 {
      ExercisesRun(exs, weightText, k - 1);
      ExercisesRunStep(exs, weightText, k - 1);
    }
  }

  // ----- the whole workout -----

  lemma DigitsHaveNoLineFeed(s: string)
    requires AllDigits(s)
    ensures '\n' !in s
  {
    assert forall k :: 0 <= k < |s| ==> s[k] != '\n';
  }

  lemma IntTextHasNoLineFeed(i: int)
    ensures '\n' !in IntText(i)
  {
    if i < 0 {
      DigitsHaveNoLineFeed(NatText(-i));
    } else {
      DigitsHaveNoLineFeed(NatText(i));
    }
  }

  lemma PiecesHaveNoLineFeed()
    ensures '\n' !in "   " && '\n' !in " кг × " && '\n' !in " "
  {
    assert forall k :: 0 <= k < |" кг × "| ==> " кг × "[k] != '\n';
  }

  lemma WeightTextHasNoLineFeed(intPart: string, fraction: string)
    requires AllDigits(intPart) && AllDigits(fraction)
    ensures '\n' !in WeightText(intPart, '.', fraction)
  {
    DigitsHaveNoLineFeed(intPart);
    DigitsHaveNoLineFeed(fraction);
  }

  lemma SetLineHasNoLineFeed(s: ExerciseSet, weightText: real -> string)
    requires SetReadsBack(s, weightText)
    ensures '\n' !in SetLineText(s, weightText)
  {
    IntTextHasNoLineFeed(s.reps);
    PiecesHaveNoLineFeed();
    if s.weight > 0.0 {
      var intPart, fraction :| |intPart| > 0 && AllDigits(intPart) && AllDigits(fraction)
        && weightText(s.weight) == WeightText(intPart, '.', fraction) && DecimalValue(intPart, fraction) == s.weight;
      WeightTextHasNoLineFeed(intPart, fraction);
    }
  }

  lemma ExerciseLinesHaveNoLineFeed(e: CompletedExercise, idx: nat, weightText: real -> string)
    requires ExerciseReadsBack(e, idx, weightText)
    ensures NoLineFeeds(ExerciseLines(e, idx, weightText))
  {
    DigitsHaveNoLineFeed(NatText(idx + 1));
    assert forall k :: 0 <= k < |e.name| ==> e.name[k] != '\n';
    assert '\n' !in HeaderText(idx, e.name);
    var sl := SetLines(e.sets, weightText);
    forall k | 0 <= k < |sl| ensures '\n' !in sl[k] {
      SetLineHasNoLineFeed(e.sets[k], weightText);
    }
  }

  lemma {:induction false} ExercisesLinesHaveNoLineFeed(exs: seq<CompletedExercise>, weightText: real -> string, k: nat)
    requires k <= |exs| && forall j :: 0 <= j < |exs| ==> ExerciseReadsBack(exs[j], j, weightText)
    ensures NoLineFeeds(ExercisesLines(exs, weightText, k))
    decreases k
  {
    if k > 0 {
      ExercisesLinesHaveNoLineFeed(exs, weightText, k - 1);
      ExerciseLinesHaveNoLineFeed(exs[k - 1], k - 1, weightText);
    }
  }

  lemma DateLineSkipped(dateText: string)
    ensures HistoryTag("Дата: " + dateText) == Skip
  {
    assert ("Дата: " + dateText)[0] == 'Д';
    LetterLineSkipped("Дата: " + dateText);
  }

  lemma DayLineSkipped(dayNumber: int)
    ensures HistoryTag("День " + IntText(dayNumber)) == Skip
  {
    assert ("День " + IntText(dayNumber))[0] == 'Д';
    LetterLineSkipped("День " + IntText(dayNumber));
  }

  /** The date line, the day line and the blank line after them are no part of any exercise. */
  lemma HeadSkipped(dateText: string, dayNumber: int)
    ensures HistoryTags(["Дата: " + dateText, "День " + IntText(dayNumber), ""]) == [Skip, Skip, Skip]
  {
    var head := ["Дата: " + dateText, "День " + IntText(dayNumber), ""];
    DateLineSkipped(dateText);
    DayLineSkipped(dayNumber);
    BlankLineSkipped();
    TagsFrom(head, 0);
    TagsFrom(head, 1);
    TagsFrom(head, 2);
    assert head[0..] == head && head[3..] == [];
  }

  lemma WorkoutLinesHaveNoLineFeed(w: HistoryWorkout, dateText: string, weightText: real -> string)
    requires '\n' !in dateText
    requires forall j :: 0 <= j < |w.exercises| ==> ExerciseReadsBack(w.exercises[j], j, weightText)
    ensures NoLineFeeds(WorkoutLines(w, dateText, weightText))
  {
    IntTextHasNoLineFeed(w.dayNumber);
    ExercisesLinesHaveNoLineFeed(w.exercises, weightText, |w.exercises|);
    assert '\n' !in "Дата: " && '\n' !in "День ";
  }

  /** The tags of the pieces `split` gives: three skipped lines, the exercises' tags, one more skipped line. */
  lemma WorkoutTags(w: HistoryWorkout, dateText: string, weightText: real -> string)
    ensures HistoryTags(WorkoutLines(w, dateText, weightText) + [""])
         == [Skip, Skip, Skip] + (HistoryTags(ExercisesLines(w.exercises, weightText, |w.exercises|)) + [Skip])
  {
    var head := ["Дата: " + dateText, "День " + IntText(w.dayNumber), ""];
    var body := ExercisesLines(w.exercises, weightText, |w.exercises|);
    assert (head + body) + [""] == head + (body + [""]);
    HistoryTagsAppend(head, body + [""]);
    HistoryTagsAppend(body, [""]);
    HeadSkipped(dateText, w.dayNumber);
    BlankLineSkipped();
    assert HistoryTags([""]) == [Skip];
  }

  /** Skipped lines before and after leave the loop's state as it is. */
  lemma RunSkips(acc: HistAcc, ts: seq<Tagged<SetLine>>)
    ensures HistRun(acc, [Skip, Skip, Skip] + (ts + [Skip])) == HistStep(HistRun(acc, ts), Skip)
  {
    HistRunAppend(acc, [Skip, Skip, Skip], ts + [Skip]);
    assert HistRun(acc, [Skip, Skip, Skip]) == acc;
    HistRunAppend(acc, ts, [Skip]);
  }

  /**
   * `parseHistoryExercises` reads back what `formatHistoryWorkout` writes: every exercise, in
   * order, with its name and its sets, when each exercise's lines read back and the date text
   * is one line.
   */
  lemma FormatThenParse(w: HistoryWorkout, dateText: string, weightText: real -> string)
    requires '\n' !in dateText
    requires forall j :: 0 <= j < |w.exercises| ==> ExerciseReadsBack(w.exercises[j], j, weightText)
    ensures HistoryDrafts(FormattedWorkout(w, dateText, weightText)) == Drafts(w.exercises)
  {
    var exs := w.exercises;
    var acc := HistAcc([], None);
    var ts := HistoryTags(ExercisesLines(exs, weightText, |exs|));
    WorkoutLinesHaveNoLineFeed(w, dateText, weightText);
    SplitTerminated(WorkoutLines(w, dateText, weightText));
    WorkoutTags(w, dateText, weightText);
    HistFoldRun(acc, [Skip, Skip, Skip] + (ts + [Skip]));
    RunSkips(acc, ts);
    ExercisesRun(exs, weightText, |exs|);
    FlushRunState(exs, |exs|);
    assert exs[..|exs|] == exs;
  }

  /** With ids attached from `next` on, the exercises read back get the supply's ids in order. */
  lemma FormatThenParseExercises(w: HistoryWorkout, dateText: string, weightText: real -> string, ids: IdSupply, next: nat)
    requires '\n' !in dateText
    requires forall j :: 0 <= j < |w.exercises| ==> ExerciseReadsBack(w.exercises[j], j, weightText)
    ensures var ex := HistoryExercises(FormattedWorkout(w, dateText, weightText), ids, next);
      |ex| == |w.exercises|
      && forall k :: 0 <= k < |ex| ==> ex[k] == CompletedExercise(ids(next + k), w.exercises[k].name, w.exercises[k].sets)
  {
    FormatThenParse(w, dateText, weightText);
  }
}
