/**
 * The history parser: cleaned text is cut at the `Тиждень: ДД.ММ.РРРР - ДД.ММ.РРРР`
 * headers, each week at its `День N` markers, and each day's lines are grouped under the
 * exercise headers, keeping the exercises that have at least one set. Also the formatter
 * that writes a parsed workout back as text.
 */
module HistoryParser {
  import opened Wrappers
  import opened Text
  import opened Segment
  import opened Types
  import opened Blocks
  import opened HistoryLines
  import Calendar

  /** A logged day: its date (a day number), its number within the week, and its exercises. */
  datatype HistoryWorkout = HistoryWorkout(date: int, dayNumber: int, exercises: seq<CompletedExercise>)

  // ----- `parseHistoryExercises` -----

  /** An exercise being read: its name and the sets pushed so far. */
  datatype HistoryDraft = HistoryDraft(name: string, sets: seq<ExerciseSet>)

  /** The loop state: the exercises pushed so far and the open one. */
  datatype HistAcc = HistAcc(done: seq<HistoryDraft>, cur: Option<HistoryDraft>)

  /** `sets.push({ setNumber: sets.length + 1, weight, reps })`. */
  function PushSet(sets: seq<ExerciseSet>, s: SetLine): seq<ExerciseSet> {
    sets + [ExerciseSet(|sets| + 1, s.weight, s.reps)]
  }

  /** The exercises pushed so far, then the open one when it has at least one set. */
  function Flush(acc: HistAcc): seq<HistoryDraft> {
    match acc.cur
    case Some(d) => if |d.sets| > 0 then acc.done + [d] else acc.done
    case None => acc.done
  }

  /** One iteration of the line loop. */
  function HistStep(acc: HistAcc, t: Tagged<SetLine>): HistAcc {
    match t
    case Open(n) => HistAcc(Flush(acc), Some(HistoryDraft(n, [])))
    case Item(s) =>
      (match acc.cur
       case Some(d) => HistAcc(acc.done, Some(HistoryDraft(d.name, PushSet(d.sets, s))))
       case None => acc)
    case Skip => acc
  }

  /** The loop over the remaining lines, then the final push. */
  function HistFold(acc: HistAcc, ts: seq<Tagged<SetLine>>): seq<HistoryDraft>
    decreases |ts|
  {
    if |ts| == 0 then Flush(acc) else HistFold(HistStep(acc, ts[0]), ts[1..])
  }

  /** The exercises of a day's text, before ids are attached. */
  function HistoryDrafts(dayText: string): seq<HistoryDraft> {
    HistFold(HistAcc([], None), HistoryTags(Split(dayText, '\n')))
  }

  /** An exercise completed with the id the supply gives at position `n`. */
  function Complete(ids: IdSupply): (HistoryDraft, nat) -> CompletedExercise {
    (d: HistoryDraft, n: nat) => CompletedExercise(ids(n), d.name, d.sets)
  }

  /** What `parseHistoryExercises` returns for a day's text when its ids are taken from `next` on. */
  function HistoryExercises(dayText: string, ids: IdSupply, next: nat): seq<CompletedExercise> {
    Numbered(Complete(ids), next, HistoryDrafts(dayText))
  }

  /** The line loop's invariant: folding the remaining lines from the current state gives all the drafts. */
  ghost predicate HistLinesLoop(done: seq<HistoryDraft>, cur: Option<HistoryDraft>, lines: seq<string>, i: nat,
                                all: seq<HistoryDraft>)
    requires i <= |lines|
  {
    HistFold(HistAcc(done, cur), HistoryTags(lines[i..])) == all
  }

  /** The line loop's invariant survives one line handled as `HistStep` says. */
  lemma HistLinesLoopStep(done: seq<HistoryDraft>, cur: Option<HistoryDraft>, done': seq<HistoryDraft>,
                          cur': Option<HistoryDraft>, lines: seq<string>, i: nat, i': nat, tag: Tagged<SetLine>,
                          all: seq<HistoryDraft>)
    requires i < |lines| && i' == i + 1 && HistLinesLoop(done, cur, lines, i, all)
    requires tag == HistoryTag(lines[i]) && HistAcc(done', cur') == HistStep(HistAcc(done, cur), tag)
    ensures HistLinesLoop(done', cur', lines, i', all)
  {
    var ts := HistoryTags(lines[i..]);
    assert ts == [HistoryTag(lines[i])] + HistoryTags(lines[i + 1..]) by {
      assert lines[i..][1..] == lines[i + 1..];
    }
    assert ts[1..] == HistoryTags(lines[i + 1..]);
  }

  /** The tag of a line, by the branches the loop takes on its trimmed text. */
  lemma TagOfLine(raw: string, line: string, tag: Tagged<SetLine>)
    requires line == Trim(raw)
    requires HeaderGroup(line).Some? ==> tag == if IsExerciseName(line) then Open(Trim(HeaderGroup(line).value)) else Skip
    requires HeaderGroup(line).None? ==> tag == if |line| > 0 && SetOf(line).Some? then Item(SetOf(line).value) else Skip
    ensures tag == HistoryTag(raw)
  {
  }

  /** Pushing one more completed exercise keeps the exercises those of the drafts. */
  lemma PushCompleted(ids: IdSupply, next: nat, exercises: seq<CompletedExercise>, done: seq<HistoryDraft>, d: HistoryDraft)
    requires exercises == Numbered(Complete(ids), next, done)
    ensures exercises + [CompletedExercise(ids(next + |exercises|), d.name, d.sets)] == Numbered(Complete(ids), next, done + [d])
  {
    NumberedPush(Complete(ids), next, done, d);
  }

  /** `parseHistoryExercises`, with the source's mutable open exercise and its pushes. */
  method ParseHistoryExercises(text: string, ids: IdSupply, next: nat) returns (exercises: seq<CompletedExercise>)
    ensures exercises == HistoryExercises(text, ids, next)
  {
    var lines := Split(text, '\n');
    exercises := [];
    ghost var done: seq<HistoryDraft> := [];
    var cur: Option<HistoryDraft> := None;
    var i: nat := 0;
    while i < |lines|
      invariant i <= |lines|
      invariant exercises == Numbered(Complete(ids), next, done)
      invariant HistLinesLoop(done, cur, lines, i, HistoryDrafts(text))
    {
      ghost var done0, cur0 := done, cur;
      var line := Trim(lines[i]);
      var exerciseMatch := HeaderGroup(line);
      ghost var tag: Tagged<SetLine> := Skip;
      if exerciseMatch.Some? {
        if IsExerciseName(line) {
          if cur.Some? && |cur.value.sets| > 0 {
            PushCompleted(ids, next, exercises, done, cur.value);
            exercises := exercises + [CompletedExercise(ids(next + |exercises|), cur.value.name, cur.value.sets)];
            done := done + [cur.value];
          }
          cur := Some(HistoryDraft(Trim(exerciseMatch.value), []));
          tag := Open(Trim(exerciseMatch.value));
        }
      } else {
        tag := if |line| > 0 && SetOf(line).Some? then Item(SetOf(line).value) else Skip;
        if cur.Some? && |line| > 0 {
          var parsed := SetOf(line);
          if parsed.Some? {
            cur := Some(HistoryDraft(cur.value.name, PushSet(cur.value.sets, parsed.value)));
          }
        }
      }
      TagOfLine(lines[i], line, tag);
      ghost var i0 := i;
      i := i + 1;
      HistLinesLoopStep(done0, cur0, done, cur, lines, i0, i, tag, HistoryDrafts(text));
    }
    assert lines[i..] == [];
    if cur.Some? && |cur.value.sets| > 0 {
      PushCompleted(ids, next, exercises, done, cur.value);
      exercises := exercises + [CompletedExercise(ids(next + |exercises|), cur.value.name, cur.value.sets)];
      done := done + [cur.value];
    }
  }

  // ----- the grouping the loop computes -----

  /** Sets pushed one at a time onto `sets`. */
  function PushAll(sets: seq<ExerciseSet>, items: seq<SetLine>): (r: seq<ExerciseSet>)
    ensures |r| == |sets| + |items|
    decreases |items|
  {
    if |items| == 0 then sets else PushAll(PushSet(sets, items[0]), items[1..])
  }

  /** Sets pushed onto `sets` keep it as a prefix and are numbered on from its length, in order. */
  lemma {:induction false} PushAllNumbers(sets: seq<ExerciseSet>, items: seq<SetLine>)
    ensures PushAll(sets, items)[..|sets|] == sets
    ensures forall k :: 0 <= k < |items| ==>
      PushAll(sets, items)[|sets| + k] == ExerciseSet(|sets| + k + 1, items[k].weight, items[k].reps)
    decreases |items|
  {
    if |items| > 0 {
      var s1 := PushSet(sets, items[0]);
      PushAllNumbers(s1, items[1..]);
      var r := PushAll(sets, items);
      assert r == PushAll(s1, items[1..]);
      assert r[..|sets|] == s1[..|sets|] by {
        assert r[..|s1|][..|sets|] == r[..|sets|];
      }
      forall k | 0 <= k < |items|
        ensures r[|sets| + k] == ExerciseSet(|sets| + k + 1, items[k].weight, items[k].reps)
      {
        if k == 0 {
          assert r[|sets|] == r[..|s1|][|sets|];
        } else {
          assert r[|s1| + (k - 1)] == ExerciseSet(|s1| + (k - 1) + 1, items[1..][k - 1].weight, items[1..][k - 1].reps);
        }
      }
    }
  }

  function WithSets(cur: Option<HistoryDraft>, items: seq<SetLine>): Option<HistoryDraft> {
    match cur
    case None => None
    case Some(d) => Some(HistoryDraft(d.name, PushAll(d.sets, items)))
  }

  /** The exercise a group gives: its name and its set lines numbered from 1. */
  function GroupDraft(g: Group<SetLine>): HistoryDraft {
    HistoryDraft(g.name, PushAll([], g.items))
  }

  /** A group's sets are its set lines in order, numbered from 1. */
  lemma GroupDraftSets(g: Group<SetLine>)
    ensures |GroupDraft(g).sets| == |g.items|
    ensures forall k :: 0 <= k < |g.items| ==> GroupDraft(g).sets[k] == ExerciseSet(k + 1, g.items[k].weight, g.items[k].reps)
  {
    var none: seq<ExerciseSet> := [];
    PushAllNumbers(none, g.items);
    forall k | 0 <= k < |g.items| ensures GroupDraft(g).sets[k] == ExerciseSet(k + 1, g.items[k].weight, g.items[k].reps) {
      assert GroupDraft(g).sets[|none| + k] == GroupDraft(g).sets[k];
    }
  }

  /** The exercises of the groups that have at least one set line, in order. */
  function KeptGroups(gs: seq<Group<SetLine>>): seq<HistoryDraft>
    decreases |gs|
  {
    if |gs| == 0 then []
    else (if |gs[0].items| > 0 then [GroupDraft(gs[0])] else []) + KeptGroups(gs[1..])
  }

  /** What the loop yields from state `acc` on tags `ts`, by the grouping. */
  function HistGrouped(acc: HistAcc, ts: seq<Tagged<SetLine>>): seq<HistoryDraft> {
    Flush(HistAcc(acc.done, WithSets(acc.cur, Pending(ts)))) + KeptGroups(Groups(ts))
  }

  lemma KeptGroupsCons(g: Group<SetLine>, gs: seq<Group<SetLine>>)
    ensures KeptGroups([g] + gs) == (if |g.items| > 0 then [GroupDraft(g)] else []) + KeptGroups(gs)
  {
    assert ([g] + gs)[1..] == gs;
  }

  lemma HistGroupedOpen(acc: HistAcc, n: string, ts: seq<Tagged<SetLine>>)
    ensures HistGrouped(HistStep(acc, Open(n)), ts) == HistGrouped(acc, [Open(n)] + ts)
  {
    var p := Pending(ts);
    var g := Group(n, p);
    var head := if |p| > 0 then [GroupDraft(g)] else [];
    var rest := KeptGroups(Groups(ts));
    var f := Flush(acc);
    TagsCons(Open(n), ts);
    KeptGroupsCons(g, Groups(ts));
    assert HistGrouped(HistStep(acc, Open(n)), ts) == (f + head) + rest by {
      assert HistStep(acc, Open(n)) == HistAcc(f, Some(HistoryDraft(n, [])));
      assert WithSets(Some(HistoryDraft(n, [])), p) == Some(GroupDraft(g));
    }
    assert HistGrouped(acc, [Open(n)] + ts) == f + (head + rest) by {
      assert WithSets(acc.cur, []) == acc.cur;
    }
    Associate(f, head, rest);
  }

  lemma HistGroupedItem(acc: HistAcc, x: SetLine, ts: seq<Tagged<SetLine>>)
    ensures HistGrouped(HistStep(acc, Item(x)), ts) == HistGrouped(acc, [Item(x)] + ts)
  {
    TagsCons(Item(x), ts);
    if acc.cur.Some? {
      assert ([x] + Pending(ts))[1..] == Pending(ts);
    }
  }

  lemma HistGroupedStep(acc: HistAcc, t: Tagged<SetLine>, ts: seq<Tagged<SetLine>>)
    ensures HistGrouped(HistStep(acc, t), ts) == HistGrouped(acc, [t] + ts)
  {
    match t
    case Open(n) => HistGroupedOpen(acc, n, ts);
    case Item(x) => HistGroupedItem(acc, x, ts);
    case Skip => TagsCons(Skip, ts);
  }

  /**
   * From any state, the loop pushes the open exercise with the set lines before the next
   * header when it then has a set, then one exercise per header whose block has a set line.
   */
  lemma {:induction false} HistFoldIsGrouping(acc: HistAcc, ts: seq<Tagged<SetLine>>)
    ensures HistFold(acc, ts) == HistGrouped(acc, ts)
    decreases |ts|
  {
    if |ts| > 0 {
      HistFoldIsGrouping(HistStep(acc, ts[0]), ts[1..]);
      HistGroupedStep(acc, ts[0], ts[1..]);
      assert [ts[0]] + ts[1..] == ts;
    } else {
      assert WithSets(acc.cur, []) == acc.cur;
    }
  }

  /**
   * `parseHistoryExercises` yields one exercise per accepted header whose block has at
   * least one set line; set lines before the first header belong to no exercise.
   */
  lemma HistoryDraftsAreGroups(dayText: string)
    ensures HistoryDrafts(dayText) == KeptGroups(Groups(HistoryTags(Split(dayText, '\n'))))
  {
    HistFoldIsGrouping(HistAcc([], None), HistoryTags(Split(dayText, '\n')));
  }

  /** A draft with at least one set, its sets numbered 1, 2, … in order. */
  predicate Logged(sets: seq<ExerciseSet>) {
    |sets| > 0 && NumberedFromOne(sets)
  }

  /** Every exercise the groups give has sets numbered from 1, one per set line of its block. */
  lemma {:induction false} KeptGroupsLogged(gs: seq<Group<SetLine>>)
    ensures forall k :: 0 <= k < |KeptGroups(gs)| ==> Logged(KeptGroups(gs)[k].sets)
    decreases |gs|
  {
    if |gs| > 0 {
      KeptGroupsLogged(gs[1..]);
      var head := if |gs[0].items| > 0 then [GroupDraft(gs[0])] else [];
      if |gs[0].items| > 0 {
        GroupDraftSets(gs[0]);
      }
      var r := KeptGroups(gs);
      assert r == head + KeptGroups(gs[1..]);
      forall k | 0 <= k < |r| ensures Logged(r[k].sets) {
        if k >= |head| {
          assert r[k] == KeptGroups(gs[1..])[k - |head|];
        }
      }
    }
  }

  /**
   * Every exercise of a day has at least one set, its sets are numbered 1, 2, … in the
   * order of their lines, and the ids are the supply's from `next` on.
   */
  lemma HistoryExercisesLogged(dayText: string, ids: IdSupply, next: nat)
    ensures var ex := HistoryExercises(dayText, ids, next);
      forall k :: 0 <= k < |ex| ==> Logged(ex[k].sets) && ex[k].exerciseId == ids(next + k)
  {
    HistoryDraftsAreGroups(dayText);
    KeptGroupsLogged(Groups(HistoryTags(Split(dayText, '\n'))));
  }

  /** Sets numbered 1, 2, … for every draft. */
  ghost predicate AllLogged(ds: seq<HistoryDraft>) {
    forall k :: 0 <= k < |ds| ==> Logged(ds[k].sets)
  }

  lemma HistoryDraftsLogged(dayText: string)
    ensures AllLogged(HistoryDrafts(dayText))
  {
    HistoryDraftsAreGroups(dayText);
    KeptGroupsLogged(Groups(HistoryTags(Split(dayText, '\n'))));
  }

  // ----- `parseWeekBlock` -----

  /** The exercise drafts of every day span of a week, in marker order. */
  function SpanHistory(text: string, hits: seq<Hit>): (dss: seq<seq<HistoryDraft>>)
    requires Increasing(hits, |text|)
    ensures |dss| == |hits|
  {
    SpanMap(HistoryDrafts, text, hits, 0)
  }

  lemma SpanHistoryAt(text: string, hits: seq<Hit>, j: nat)
    requires Increasing(hits, |text|) && j < |hits|
    ensures SpanHistory(text, hits)[j] == HistoryDrafts(Span(text, hits, j))
  {
    SpanMapAt(HistoryDrafts, text, hits, 0, j);
  }

  /** A copy of the week's start date moved on by `dayNumber - 1` days with `setDate`. */
  function WorkoutDate(start: int, dayNumber: int): int {
    start + dayNumber - 1
  }

  /**
   * `setDate(startDate.getDate() + dayNumber - 1)` on a copy of `new Date(y, m, d)` is the
   * local date whose day field is `d + dayNumber - 1`, rolling over into later (or, for
   * day numbers below 1, earlier) months.
   */
  lemma WorkoutDateSetsDay(y: int, monthIndex: int, d: int, dayNumber: int)
    ensures WorkoutDate(Calendar.LocalDate(y, monthIndex, d), dayNumber) == Calendar.LocalDate(y, monthIndex, d + dayNumber - 1)
  {
    Calendar.LocalDateDayRollsOver(y, monthIndex, d);
    Calendar.LocalDateDayRollsOver(y, monthIndex, d + dayNumber - 1);
  }

  /**
   * The workouts of day spans with numbers `values` and drafts `dss`: a span that yields
   * exercises gives a workout dated from the week's start; ids continue across spans.
   */
  function HistDays(start: int, values: seq<int>, dss: seq<seq<HistoryDraft>>, ids: IdSupply, next: nat): seq<HistoryWorkout>
    requires |values| == |dss|
    decreases |values|
  {
    if |values| == 0 then []
    else
      var ex := Numbered(Complete(ids), next, dss[0]);
      (if |ex| > 0 then [HistoryWorkout(WorkoutDate(start, values[0]), values[0], ex)] else [])
        + HistDays(start, values[1..], dss[1..], ids, next + |ex|)
  }

  lemma HistDaysStep(start: int, values: seq<int>, dss: seq<seq<HistoryDraft>>, ids: IdSupply, n: nat, i: nat)
    requires |values| == |dss| && i < |values|
    ensures var ex := Numbered(Complete(ids), n, dss[i]);
      HistDays(start, values[i..], dss[i..], ids, n)
      == (if |ex| > 0 then [HistoryWorkout(WorkoutDate(start, values[i]), values[i], ex)] else [])
        + HistDays(start, values[i + 1..], dss[i + 1..], ids, n + |ex|)
  {
    assert values[i..][1..] == values[i + 1..] && dss[i..][1..] == dss[i + 1..];
    assert values[i..][0] == values[i] && dss[i..][0] == dss[i];
  }

  /** The day loop's invariant: the workouts so far, then those of the spans from `i` on, are the week's. */
  ghost predicate HistDaysLoop(workouts: seq<HistoryWorkout>, start: int, values: seq<int>, dss: seq<seq<HistoryDraft>>,
                               ids: IdSupply, next: nat, n: nat, i: nat)
    requires |values| == |dss| && i <= |values|
  {
    workouts + HistDays(start, values[i..], dss[i..], ids, n) == HistDays(start, values, dss, ids, next)
  }

  lemma HistDaysLoopStep(workouts: seq<HistoryWorkout>, workouts': seq<HistoryWorkout>, start: int, values: seq<int>,
                         dss: seq<seq<HistoryDraft>>, ids: IdSupply, next: nat, n: nat, i: nat,
                         ex: seq<CompletedExercise>, n': nat, i': nat)
    requires |values| == |dss| && i < |values| && n' == n + |ex| && i' == i + 1
    requires HistDaysLoop(workouts, start, values, dss, ids, next, n, i)
    requires ex == Numbered(Complete(ids), n, dss[i])
    requires workouts' == if |ex| > 0 then workouts + [HistoryWorkout(WorkoutDate(start, values[i]), values[i], ex)] else workouts
    ensures HistDaysLoop(workouts', start, values, dss, ids, next, n', i')
  {
    var head := if |ex| > 0 then [HistoryWorkout(WorkoutDate(start, values[i]), values[i], ex)] else [];
    var later := HistDays(start, values[i'..], dss[i'..], ids, n');
    assert workouts' == workouts + head;
    assert HistDays(start, values[i..], dss[i..], ids, n) == head + later by {
      HistDaysStep(start, values, dss, ids, n, i);
    }
    Associate(workouts, head, later);
  }

  /** What `parseWeekBlock` returns for one week's text starting on day `start`. */
  function WeekWorkouts(text: string, start: int, ids: IdSupply, next: nat): seq<HistoryWorkout> {
    var hits := MatchAll(DayMarker, text);
    MatchAllIncreasing(DayMarker, text);
    if |hits| == 0 then [] else HistDays(start, HitValues(hits), SpanHistory(text, hits), ids, next)
  }

  /** `parseWeekBlock`: the day markers of the week and a dated workout for each day with exercises. */
  method ParseWeekBlock(text: string, startDate: int, ids: IdSupply, next: nat) returns (workouts: seq<HistoryWorkout>)
    ensures workouts == WeekWorkouts(text, startDate, ids, next)
  {
    workouts := [];
    var dayMatches := MatchAll(DayMarker, text);
    MatchAllIncreasing(DayMarker, text);
    if |dayMatches| == 0 {
      return;
    }
    workouts := ParseWeekDays(text, dayMatches, startDate, ids, next);
  }

  /** The `forEach` over a week's day markers: each span is parsed and kept, dated, when it yields exercises. */
  method ParseWeekDays(text: string, dayMatches: seq<Hit>, startDate: int, ids: IdSupply, next: nat)
    returns (workouts: seq<HistoryWorkout>)
    requires Increasing(dayMatches, |text|)
    ensures workouts == HistDays(startDate, HitValues(dayMatches), SpanHistory(text, dayMatches), ids, next)
  {
    workouts := [];
    ghost var values := HitValues(dayMatches);
    ghost var dss := SpanHistory(text, dayMatches);
    var n: nat := next;
    var index: nat := 0;
    while index < |dayMatches|
      invariant 0 <= index <= |dayMatches|
      invariant HistDaysLoop(workouts, startDate, values, dss, ids, next, n, index)
      decreases |dayMatches| - index
    {
      var dayNumber := dayMatches[index].value;
      var startIndex := dayMatches[index].start;
      var endIndex := if index < |dayMatches| - 1 then dayMatches[index + 1].start else |text|;
      var dayText := text[startIndex..endIndex];
      assert dayText == Span(text, dayMatches, index);
      var exercises := ParseHistoryExercises(dayText, ids, n);
      SpanHistoryAt(text, dayMatches, index);
      assert exercises == Numbered(Complete(ids), n, dss[index]);
      assert dayNumber == values[index];
      ghost var before := workouts;
      if |exercises| > 0 {
        var workoutDate := WorkoutDate(startDate, dayNumber);
        workouts := workouts + [HistoryWorkout(workoutDate, dayNumber, exercises)];
      }
      assert HistDaysLoop(before, startDate, values, dss, ids, next, n, index);
      ghost var n0, index0 := n, index;
      n, index := n + |exercises|, index + 1;
      HistDaysLoopStep(before, workouts, startDate, values, dss, ids, next, n0, index0, exercises, n, index);
    }
    assert values[index..] == [] && dss[index..] == [];
  }

  // ----- `parseHistoryWorkouts` -----

  /** Every exercise of the workouts, in order. */
  function AllExercises(ws: seq<HistoryWorkout>): seq<CompletedExercise>
    decreases |ws|
  {
    if |ws| == 0 then [] else ws[0].exercises + AllExercises(ws[1..])
  }

  lemma {:induction false} AllExercisesAppend(a: seq<HistoryWorkout>, b: seq<HistoryWorkout>)
    ensures AllExercises(a + b) == AllExercises(a) + AllExercises(b)
    decreases |a|
  {
    if |a| > 0 {
      assert (a + b)[1..] == a[1..] + b;
      AllExercisesAppend(a[1..], b);
      Associate(a[0].exercises, AllExercises(a[1..]), AllExercises(b));
    } else {
      assert a + b == b;
    }
  }

  /** `parseWeekBlock` with ids from the supply: a week's text, its start date and the next id's position. */
  function WeekFn(ids: IdSupply): (string, int, nat) -> seq<HistoryWorkout> {
    (t: string, start: int, n: nat) => WeekWorkouts(t, start, ids, n)
  }

  /**
   * The workouts of week spans with start dates `starts` and texts `weeks`, each parsed
   * with `week`, in order; the exercise ids continue from one week to the next.
   */
  function WeeksOf(week: (string, int, nat) -> seq<HistoryWorkout>, starts: seq<int>, weeks: seq<string>, next: nat): seq<HistoryWorkout>
    requires |starts| == |weeks|
    decreases |starts|
  {
    if |starts| == 0 then []
    else
      var w := week(weeks[0], starts[0], next);
      w + WeeksOf(week, starts[1..], weeks[1..], next + |AllExercises(w)|)
  }

  /** The week loop's invariant: the workouts so far, then those of the weeks from `i` on, are all of them. */
  ghost predicate WeeksLoop(workouts: seq<HistoryWorkout>, week: (string, int, nat) -> seq<HistoryWorkout>,
                            starts: seq<int>, weeks: seq<string>, next: nat, n: nat, i: nat)
    requires |starts| == |weeks| && i <= |starts|
  {
    workouts + WeeksOf(week, starts[i..], weeks[i..], n) == WeeksOf(week, starts, weeks, next)
  }

  lemma WeeksLoopStep(workouts: seq<HistoryWorkout>, week: (string, int, nat) -> seq<HistoryWorkout>,
                      starts: seq<int>, weeks: seq<string>, next: nat, n: nat, i: nat,
                      w: seq<HistoryWorkout>, n': nat, i': nat)
    requires |starts| == |weeks| && i < |starts| && i' == i + 1
    requires WeeksLoop(workouts, week, starts, weeks, next, n, i)
    requires w == week(weeks[i], starts[i], n) && n' == n + |AllExercises(w)|
    ensures WeeksLoop(workouts + w, week, starts, weeks, next, n', i')
  {
    assert starts[i..][1..] == starts[i'..] && weeks[i..][1..] == weeks[i'..];
    assert starts[i..][0] == starts[i] && weeks[i..][0] == weeks[i];
    Associate(workouts, w, WeeksOf(week, starts[i'..], weeks[i'..], n'));
  }

  /** The message `parseHistoryWorkouts` throws when the text has no week header. */
  const NoWeeksMessage: string := "Не знайдено тижнів у форматі \"Тиждень: ДД.ММ.РРРР - ДД.ММ.РРРР\""

  /** The texts of the week spans, in order. */
  function WeekTexts(clean: string, hits: seq<Hit>): (weeks: seq<string>)
    requires Increasing(hits, |clean|)
    ensures |weeks| == |hits|
    ensures forall j :: 0 <= j < |hits| ==> weeks[j] == Span(clean, hits, j)
  {
    SpansFrom(clean, hits, 0)
  }

  /**
   * What `parseHistoryWorkouts` returns, exercise ids taken from the supply from `next`
   * on: the error when the cleaned text has no week header, else the workouts of every
   * week in order.
   */
  function HistoryParse(text: string, ids: IdSupply, next: nat): Result<seq<HistoryWorkout>> {
    var clean := CleanText(text);
    var hits := MatchAll(WeekHeader, clean);
    MatchAllIncreasing(WeekHeader, clean);
    if |hits| == 0 then Err(NoWeeksMessage) else Ok(WeeksOf(WeekFn(ids), HitValues(hits), WeekTexts(clean, hits), next))
  }

  /** `parseHistoryWorkouts`: cleaning, the week headers, and the workouts of each week's span. */
  method ParseHistoryWorkouts(text: string, ids: IdSupply, next: nat) returns (r: Result<seq<HistoryWorkout>>)
    ensures r == HistoryParse(text, ids, next)
  {
    var cleanText := CleanText(text);
    var weekMatches := MatchAll(WeekHeader, cleanText);
    MatchAllIncreasing(WeekHeader, cleanText);
    if |weekMatches| == 0 {
      return Err(NoWeeksMessage);
    }
    var workouts := ParseWeeks(cleanText, weekMatches, ids, next);
    return Ok(workouts);
  }

  /** The `forEach` over the week headers: each week's span is parsed from its start date and its workouts appended. */
  method ParseWeeks(cleanText: string, weekMatches: seq<Hit>, ids: IdSupply, next: nat) returns (workouts: seq<HistoryWorkout>)
    requires Increasing(weekMatches, |cleanText|)
    ensures workouts == WeeksOf(WeekFn(ids), HitValues(weekMatches), WeekTexts(cleanText, weekMatches), next)
  {
    workouts := [];
    ghost var starts := HitValues(weekMatches);
    ghost var weeks := WeekTexts(cleanText, weekMatches);
    var n: nat := next;
    var weekIndex: nat := 0;
    while weekIndex < |weekMatches|
      invariant 0 <= weekIndex <= |weekMatches|
      invariant WeeksLoop(workouts, WeekFn(ids), starts, weeks, next, n, weekIndex)
      decreases |weekMatches| - weekIndex
    {
      var startDate := weekMatches[weekIndex].value;
      var startIndex := weekMatches[weekIndex].start;
      var endIndex := if weekIndex < |weekMatches| - 1 then weekMatches[weekIndex + 1].start else |cleanText|;
      var weekText := cleanText[startIndex..endIndex];
      assert weekText == weeks[weekIndex];
      var weekWorkouts := ParseWeekBlock(weekText, startDate, ids, n);
      assert weekWorkouts == WeekFn(ids)(weeks[weekIndex], starts[weekIndex], n);
      ghost var n0, index0 := n, weekIndex;
      n, weekIndex := n + |AllExercises(weekWorkouts)|, weekIndex + 1;
      WeeksLoopStep(workouts, WeekFn(ids), starts, weeks, next, n0, index0, weekWorkouts, n, weekIndex);
      workouts := workouts + weekWorkouts;
    }
    assert starts[weekIndex..] == [] && weeks[weekIndex..] == [];
  }

  /** `parseHistoryWorkouts` throws exactly when the cleaned text has no week header anywhere. */
  lemma HistoryParseFailsIff(text: string, ids: IdSupply, next: nat)
    ensures HistoryParse(text, ids, next).Err?
      <==> forall p :: 0 <= p <= |CleanText(text)| ==> MarkerAt(WeekHeader, CleanText(text), p).None?
    ensures HistoryParse(text, ids, next).Err? ==> HistoryParse(text, ids, next).message == NoWeeksMessage
  {
    MatchAllEmptyIff(WeekHeader, CleanText(text));
  }

  // ----- What every parsed workout satisfies -----

  /**
   * A workout as the history parser builds it: dated `dayNumber - 1` days after the week's
   * start, with at least one exercise, each with sets numbered 1, 2, … in order.
   */
  ghost predicate DatedFrom(w: HistoryWorkout, start: int) {
    w.date == WorkoutDate(start, w.dayNumber) && |w.exercises| > 0
    && forall e :: 0 <= e < |w.exercises| ==> Logged(w.exercises[e].sets)
  }

  /** The exercises carry the supply's ids in order, from position `n` on. */
  ghost predicate IdsFrom(exs: seq<CompletedExercise>, ids: IdSupply, n: nat) {
    forall k :: 0 <= k < |exs| ==> exs[k].exerciseId == ids(n + k)
  }

  lemma IdsFromAppend(a: seq<CompletedExercise>, b: seq<CompletedExercise>, ids: IdSupply, n: nat)
    requires IdsFrom(a, ids, n) && IdsFrom(b, ids, n + |a|)
    ensures IdsFrom(a + b, ids, n)
  {
    forall k | |a| <= k < |a| + |b| ensures (a + b)[k].exerciseId == ids(n + k) {
      assert (a + b)[k] == b[k - |a|];
    }
  }

  /** The exercises of one day, with their ids and their drafts' names and sets. */
  lemma NumberedCompleteAt(ids: IdSupply, n: nat, ds: seq<HistoryDraft>, k: nat)
    requires k < |ds|
    ensures Numbered(Complete(ids), n, ds)[k] == CompletedExercise(ids(n + k), ds[k].name, ds[k].sets)
  {
  }

  lemma DayExercises(ids: IdSupply, n: nat, ds: seq<HistoryDraft>)
    requires AllLogged(ds)
    ensures var ex := Numbered(Complete(ids), n, ds);
      IdsFrom(ex, ids, n) && forall e :: 0 <= e < |ex| ==> Logged(ex[e].sets)
  {
    var ex := Numbered(Complete(ids), n, ds);
    forall e | 0 <= e < |ex| ensures ex[e].exerciseId == ids(n + e) && Logged(ex[e].sets) {
      NumberedCompleteAt(ids, n, ds, e);
    }
  }

  /** A day that gives a workout contributes exactly its exercises. */
  lemma AllExercisesHead(head: seq<HistoryWorkout>, rest: seq<HistoryWorkout>, ex: seq<CompletedExercise>)
    requires |ex| > 0 ==> |head| == 1 && head[0].exercises == ex
    requires |ex| == 0 ==> head == []
    ensures AllExercises(head + rest) == ex + AllExercises(rest)
  {
    AllExercisesAppend(head, rest);
    if |ex| > 0 {
      assert head[1..] == [];
    }
  }

  /**
   * The workouts of a week's day spans are dated from the week's start and logged, and
   * their exercises carry the supply's ids in order from `next`.
   */
  lemma {:induction false} HistDaysDated(start: int, values: seq<int>, dss: seq<seq<HistoryDraft>>, ids: IdSupply, next: nat)
    requires |values| == |dss|
    requires forall j :: 0 <= j < |dss| ==> AllLogged(dss[j])
    ensures var ws := HistDays(start, values, dss, ids, next);
      AllDatedFrom(ws, start) && IdsFrom(AllExercises(ws), ids, next)
    decreases |values|
  {
    if |values| > 0 {
      var ex := Numbered(Complete(ids), next, dss[0]);
      var head := if |ex| > 0 then [HistoryWorkout(WorkoutDate(start, values[0]), values[0], ex)] else [];
      var rest := HistDays(start, values[1..], dss[1..], ids, next + |ex|);
      assert HistDays(start, values, dss, ids, next) == head + rest;
      assert forall j :: 0 <= j < |dss[1..]| ==> AllLogged(dss[1..][j]) by {
        forall j | 0 <= j < |dss[1..]| ensures AllLogged(dss[1..][j]) {
          assert dss[1..][j] == dss[j + 1];
        }
      }
      HistDaysDated(start, values[1..], dss[1..], ids, next + |ex|);
      DayHead(start, values[0], ids, next, dss[0]);
      AllExercisesHead(head, rest, ex);
      IdsFromAppend(ex, AllExercises(rest), ids, next);
      DatedAppend(head, rest, start);
    }
  }

  /** The workout a day's drafts give, if any: dated from the start, logged, with ids from `n`. */
  lemma DayHead(start: int, value: int, ids: IdSupply, n: nat, ds: seq<HistoryDraft>)
    requires AllLogged(ds)
    ensures var ex := Numbered(Complete(ids), n, ds);
      var head := if |ex| > 0 then [HistoryWorkout(WorkoutDate(start, value), value, ex)] else [];
      AllDatedFrom(head, start) && IdsFrom(ex, ids, n)
      && (|ex| > 0 ==> |head| == 1 && head[0].exercises == ex) && (|ex| == 0 ==> head == [])
  {
    DayExercises(ids, n, ds);
  }

  lemma DatedAppend(head: seq<HistoryWorkout>, rest: seq<HistoryWorkout>, start: int)
    requires AllDatedFrom(head, start) && AllDatedFrom(rest, start)
    ensures AllDatedFrom(head + rest, start)
  {
    forall k | |head| <= k < |head| + |rest| ensures DatedFrom((head + rest)[k], start) {
      assert (head + rest)[k] == rest[k - |head|];
    }
  }

  /** `parseWeekBlock`'s workouts are dated from the week's start and logged; ids run on from `next`. */
  lemma WeekWorkoutsDated(text: string, start: int, ids: IdSupply, next: nat)
    ensures var ws := WeekWorkouts(text, start, ids, next);
      (forall k :: 0 <= k < |ws| ==> DatedFrom(ws[k], start)) && IdsFrom(AllExercises(ws), ids, next)
  {
    var hits := MatchAll(DayMarker, text);
    MatchAllIncreasing(DayMarker, text);
    if |hits| > 0 {
      var dss := SpanHistory(text, hits);
      forall j | 0 <= j < |dss| ensures AllLogged(dss[j]) {
        SpanHistoryAt(text, hits, j);
        HistoryDraftsLogged(Span(text, hits, j));
      }
      HistDaysDated(start, HitValues(hits), dss, ids, next);
    }
  }

  /** Every workout of the list is dated from `start` and logged. */
  ghost predicate AllDatedFrom(ws: seq<HistoryWorkout>, start: int) {
    forall k :: 0 <= k < |ws| ==> DatedFrom(ws[k], start)
  }

  /** What a week parser guarantees for any week text, start date and id position. */
  ghost predicate WeekSound(week: (string, int, nat) -> seq<HistoryWorkout>, ids: IdSupply) {
    forall t: string, start: int, n: nat ::
      AllDatedFrom(week(t, start, n), start) && IdsFrom(AllExercises(week(t, start, n)), ids, n)
  }

  lemma WeekFnSound(ids: IdSupply)
    ensures WeekSound(WeekFn(ids), ids)
  {
    forall t: string, start: int, n: nat
      ensures AllDatedFrom(WeekFn(ids)(t, start, n), start) && IdsFrom(AllExercises(WeekFn(ids)(t, start, n)), ids, n)
    {
      WeekWorkoutsDated(t, start, ids, n);
    }
  }

  /** Every workout of the weeks is dated from one of the weeks' starts and logged; ids run on from `next`. */
  lemma {:induction false} WeeksOfDated(week: (string, int, nat) -> seq<HistoryWorkout>, ids: IdSupply,
                                        starts: seq<int>, weeks: seq<string>, next: nat)
    requires |starts| == |weeks| && WeekSound(week, ids)
    ensures var ws := WeeksOf(week, starts, weeks, next);
      (forall k :: 0 <= k < |ws| ==> exists j :: 0 <= j < |starts| && DatedFrom(ws[k], starts[j]))
      && IdsFrom(AllExercises(ws), ids, next)
    decreases |starts|
  {
    if |starts| > 0 {
      var w := week(weeks[0], starts[0], next);
      var rest := WeeksOf(week, starts[1..], weeks[1..], next + |AllExercises(w)|);
      assert AllDatedFrom(w, starts[0]) && IdsFrom(AllExercises(w), ids, next);
      WeeksOfDated(week, ids, starts[1..], weeks[1..], next + |AllExercises(w)|);
      AllExercisesAppend(w, rest);
      IdsFromAppend(AllExercises(w), AllExercises(rest), ids, next);
      var ws := w + rest;
      forall k | 0 <= k < |ws| ensures exists j :: 0 <= j < |starts| && DatedFrom(ws[k], starts[j]) {
        if k < |w| {
          assert DatedFrom(ws[k], starts[0]);
        } else {
          assert ws[k] == rest[k - |w|];
          var j :| 0 <= j < |starts[1..]| && DatedFrom(rest[k - |w|], starts[1..][j]);
          assert DatedFrom(ws[k], starts[j + 1]);
        }
      }
    }
  }

  /**
   * Every workout `parseHistoryWorkouts` returns lies `dayNumber - 1` days after the start
   * date of one of the text's week headers, has at least one exercise, and numbers each
   * exercise's sets 1, 2, … in order; the exercises of all the workouts, in order, take
   * the supply's ids from `next` on.
   */
  lemma HistoryParseDated(text: string, ids: IdSupply, next: nat)
    ensures var r := HistoryParse(text, ids, next);
      var hits := MatchAll(WeekHeader, CleanText(text));
      r.Ok? ==>
        (forall k :: 0 <= k < |r.value| ==> exists j :: 0 <= j < |hits| && DatedFrom(r.value[k], hits[j].value))
        && IdsFrom(AllExercises(r.value), ids, next)
  {
    var clean := CleanText(text);
    MatchAllIncreasing(WeekHeader, clean);
    var hits := MatchAll(WeekHeader, clean);
    if |hits| > 0 {
      WeeksOfHitsDated(ids, hits, WeekTexts(clean, hits), next);
    }
  }

  lemma WeeksOfHitsDated(ids: IdSupply, hits: seq<Hit>, weeks: seq<string>, next: nat)
    requires |hits| == |weeks|
    ensures var ws := WeeksOf(WeekFn(ids), HitValues(hits), weeks, next);
      (forall k :: 0 <= k < |ws| ==> exists j :: 0 <= j < |hits| && DatedFrom(ws[k], hits[j].value))
      && IdsFrom(AllExercises(ws), ids, next)
  {
    var starts := HitValues(hits);
    WeekFnSound(ids);
    WeeksOfDated(WeekFn(ids), ids, starts, weeks, next);
    var ws := WeeksOf(WeekFn(ids), starts, weeks, next);
    forall k | 0 <= k < |ws| ensures exists j :: 0 <= j < |hits| && DatedFrom(ws[k], hits[j].value) {
      var j :| 0 <= j < |starts| && DatedFrom(ws[k], starts[j]);
      assert starts[j] == hits[j].value;
    }
  }

  /** When the supply never repeats an id, no two exercises of a parse share one. */
  lemma HistoryIdsDistinct(text: string, ids: IdSupply, next: nat)
    requires forall a: nat, b: nat :: a != b ==> ids(a) != ids(b)
    ensures var r := HistoryParse(text, ids, next);
      r.Ok? ==> forall k, l :: 0 <= k < l < |AllExercises(r.value)| ==>
        AllExercises(r.value)[k].exerciseId != AllExercises(r.value)[l].exerciseId
  {
    HistoryParseDated(text, ids, next);
  }
}
