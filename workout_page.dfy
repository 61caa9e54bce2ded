/**
 * The workout page's own logic: the exercise list it starts from (the logged workout when
 * there is one, otherwise one exercise per plan exercise with its sets pre-filled and the
 * stored weight suggestions merged in), which exercises are in edit mode, and the save
 * status the save callbacks set.
 */
module WorkoutPage {
  import opened Wrappers
  import opened Text
  import opened Segment
  import opened Types
  import ExerciseEditing

  // ----- `parseInt` -----

  /**
   * `parseInt(s)` with no radix: leading spaces, an optional sign, a `0x`/`0X` prefix for
   * base 16, then the longest run of digits; `None` is `NaN` (no digit at all).
   */
  function ParseInt(s: string): Option<int> {
    ParseFrom(s[RunEnd(s, 0, Spaces)..])
  }

  /** What `parseInt` reads after the leading spaces: the sign, a hex prefix and the digits. */
  function ParseFrom(t: string): Option<int> {
    var negative := 0 < |t| && t[0] == '-';
    var b := if 0 < |t| && (t[0] == '-' || t[0] == '+') then 1 else 0;
    var sign := if negative then -1 else 1;
    if b + 1 < |t| && t[b] == '0' && (t[b + 1] == 'x' || t[b + 1] == 'X') then
      var e := RunEnd(t, b + 2, HexDigits);
      if e == b + 2 then None else Some(sign * HexValue(t[b + 2..e]))
    else
      var e := RunEnd(t, b, Digits);
      if e == b then None else Some(sign * DigitsValue(t[b..e]))
  }

  /** Characters that end a decimal number: anything but a digit, and no `x` that would make `0` a hex prefix. */
  predicate EndsDecimal(rest: string) {
    |rest| > 0 ==> !IsDigit(rest[0]) && rest[0] != 'x' && rest[0] != 'X'
  }

  /** The sign `ParseFrom` reads, and the position after it. */
  function SignEnd(t: string): nat {
    if 0 < |t| && (t[0] == '-' || t[0] == '+') then 1 else 0
  }

  /** The digits between the sign and position `e` are what `ParseFrom` reads in base 10. */
  lemma DecimalFrom(t: string, e: nat)
    requires SignEnd(t) < e <= |t|
    requires forall i :: SignEnd(t) <= i < e ==> IsDigit(t[i])
    requires EndsDecimal(t[e..])
    ensures ParseFrom(t) == Some((if t[0] == '-' then -1 else 1) * DigitsValue(t[SignEnd(t)..e]))
  {
    var b := SignEnd(t);
    assert !(b + 1 < |t| && t[b] == '0' && (t[b + 1] == 'x' || t[b + 1] == 'X')) by {
      if b + 1 == e && e < |t| {
        assert t[e..][0] == t[e];
      }
    }
    RunEndIs(t, b, e, Digits);
  }

  /** Text that does not open with a space is read from its start. */
  lemma NoLeadingSpace(s: string)
    requires |s| > 0 && !IsSpace(s[0])
    ensures ParseInt(s) == ParseFrom(s)
  {
    RunEndIs(s, 0, 0, Spaces);
    assert s[0..] == s;
  }

  /** Leading decimal digits are read up to the first character that is not one. */
  lemma ParseLeadingDigits(d: string, rest: string)
    requires |d| > 0 && AllDigits(d) && EndsDecimal(rest)
    ensures ParseInt(d + rest) == Some(DigitsValue(d))
  {
    var s := d + rest;
    RunEndIs(s, 0, 0, Spaces);
    assert s[0..] == s;
    assert s[|d|..] == rest;
    DecimalFrom(s, |d|);
    assert s[0..|d|] == d;
  }

  /** A minus sign in front negates the number. */
  lemma ParseNegative(d: string, rest: string)
    requires |d| > 0 && AllDigits(d) && EndsDecimal(rest)
    ensures ParseInt("-" + d + rest) == Some(-1 * DigitsValue(d))
  {
    var s := "-" + d + rest;
    NoLeadingSpace(s);
    assert s[|d| + 1..] == rest;
    DecimalFrom(s, |d| + 1);
    assert s[1..|d| + 1] == d;
  }

  /** A plus sign in front changes nothing. */
  lemma ParsePositive(d: string, rest: string)
    requires |d| > 0 && AllDigits(d) && EndsDecimal(rest)
    ensures ParseInt("+" + d + rest) == Some(DigitsValue(d))
  {
    var s := "+" + d + rest;
    NoLeadingSpace(s);
    assert s[|d| + 1..] == rest;
    DecimalFrom(s, |d| + 1);
    assert s[1..|d| + 1] == d;
  }

  /** Leading spaces are skipped. */
  lemma ParseSkipsSpaces(sp: string, t: string)
    requires forall i :: 0 <= i < |sp| ==> IsSpace(sp[i])
    requires |t| > 0 && !IsSpace(t[0])
    ensures ParseInt(sp + t) == ParseInt(t)
  {
    var s := sp + t;
    RunEndIs(s, 0, |sp|, Spaces);
    RunEndIs(t, 0, 0, Spaces);
    assert s[|sp|..] == t;
    assert t[0..] == t;
  }

  /** Hex digits after an unsigned `0x` or `0X` up to position `e` are what `ParseFrom` reads in base 16. */
  lemma HexFrom(t: string, e: nat)
    requires 2 < e <= |t| && t[0] == '0' && (t[1] == 'x' || t[1] == 'X')
    requires forall i :: 2 <= i < e ==> IsHexDigit(t[i])
    requires e < |t| ==> !IsHexDigit(t[e])
    ensures ParseFrom(t) == Some(HexValue(t[2..e]))
  {
    RunEndIs(t, 2, e, HexDigits);
  }

  /** `0x` or `0X` followed by hex digits is read in base 16. */
  lemma ParseHex(x: char, h: string, rest: string)
    requires x == 'x' || x == 'X'
    requires |h| > 0 && forall i :: 0 <= i < |h| ==> IsHexDigit(h[i])
    requires |rest| > 0 ==> !IsHexDigit(rest[0])
    ensures ParseInt(['0', x] + h + rest) == Some(HexValue(h))
  {
    var s := ['0', x] + h + rest;
    RunEndIs(s, 0, 0, Spaces);
    assert s[0..] == s;
    HexFrom(s, |h| + 2);
    assert s[2..|h| + 2] == h;
  }

  /** Text that does not start with a space, a sign or a digit is `NaN`. */
  lemma ParseNoNumber(s: string)
    requires |s| > 0 ==> !IsSpace(s[0]) && !IsDigit(s[0]) && s[0] != '-' && s[0] != '+'
    ensures ParseInt(s) == None
  {
    if |s| > 0 {
      RunEndIs(s, 0, 0, Spaces);
      assert s[0..] == s;
      RunEndIs(s, 0, 0, Digits);
    }
  }

  /** `0x` with no hex digit after it is `NaN`, not 0. */
  lemma ParseBareHexPrefix()
    ensures ParseInt("0x") == None
  {
    RunEndIs("0x", 0, 0, Spaces);
    assert "0x"[0..] == "0x";
  }

  /** `parseInt(reps.split('-')[0]) || 0`: the planned repetitions a new set starts with. */
  function RepsFromPlan(reps: string): int {
    var v := ParseInt(Split(reps, '-')[0]);
    if v.Some? && v.value != 0 then v.value else 0
  }

  /** A range written as digits, a dash and anything gives the number before the dash; digits alone give that number. */
  lemma RepsFromPlanLeading(d: string, rest: string)
    requires |d| > 0 && AllDigits(d)
    ensures RepsFromPlan(d + "-" + rest) == DigitsValue(d)
    ensures RepsFromPlan(d) == DigitsValue(d)
  {
    var s := d + "-" + rest;
    assert s[|d|] == '-';
    assert IndexOf(s, '-', 0) == |d|;
    assert s[..|d|] == d;
    assert IndexOf(d, '-', 0) == |d|;
    assert d + "" == d;
    ParseLeadingDigits(d, "");
  }

  /** The first piece has no dash, so the planned repetitions are never negative. */
  lemma RepsFromPlanNonNegative(reps: string)
    ensures RepsFromPlan(reps) >= 0
  {
    var piece := Split(reps, '-')[0];
    var a := RunEnd(piece, 0, Spaces);
    assert a < |piece| ==> piece[a] != '-';
  }

  /** A plan range that does not start with a number, "макс" say, gives 0. */
  lemma RepsFromPlanNoNumber(reps: string)
    requires |reps| > 0 && !IsSpace(reps[0]) && !IsDigit(reps[0]) && reps[0] != '+'
    ensures RepsFromPlan(reps) == 0
  {
    var piece := Split(reps, '-')[0];
    if |piece| > 0 {
      assert piece[0] == reps[0];
    }
    ParseNoNumber(piece);
  }

  lemma RepsOfUsualRange()
    ensures RepsFromPlan("8-12") == 8
  {
    assert "8-12" == "8" + "-" + "12";
    RepsFromPlanLeading("8", "12");
    assert DigitsValue("8") == 8 by {
      assert "8"[..0] == "";
    }
  }

  // ----- the list the page starts from -----

  /** `Array.from({ length: ex.sets }, (_, i) => ({ setNumber: i + 1, weight: 0, reps }))`. */
  function InitialSets(ex: Exercise): (sets: seq<ExerciseSet>)
    ensures |sets| == ex.sets && NumberedFromOne(sets)
    ensures forall i :: 0 <= i < |sets| ==> sets[i].weight == 0.0 && sets[i].reps == RepsFromPlan(ex.reps)
  {
    seq(ex.sets, i => ExerciseSet(i + 1, 0.0, RepsFromPlan(ex.reps)))
  }

  /** `dayWorkout.exercises.map(ex => ({ exerciseId: ex.id, name: ex.name, sets }))`. */
  function InitialExercises(day: DayWorkout): (r: seq<CompletedExercise>)
    ensures |r| == |day.exercises|
    ensures forall k :: 0 <= k < |r| ==>
      r[k].exerciseId == day.exercises[k].id && r[k].name == day.exercises[k].name
      && r[k].sets == InitialSets(day.exercises[k])
  {
    seq(|day.exercises|, k requires 0 <= k < |day.exercises| =>
      CompletedExercise(day.exercises[k].id, day.exercises[k].name, InitialSets(day.exercises[k])))
  }

  /** A stored suggestion for an exercise: a weight and a repetition count per set. */
  datatype Suggestion = Suggestion(suggestedWeights: seq<real>, suggestedReps: seq<int>)

  /** The suggestions by exercise name. */
  type Suggestions = map<string, Suggestion>

  /** `suggestedWeights[index] || 0`: a missing or zero entry gives 0. */
  function SuggestedWeight(weights: seq<real>, index: nat): real {
    if index < |weights| && weights[index] != 0.0 then weights[index] else 0.0
  }

  /** `suggestedReps[index] || set.reps`: a missing or zero entry keeps the set's reps. */
  function SuggestedReps(reps: seq<int>, index: nat, current: int): int {
    if index < |reps| && reps[index] != 0 then reps[index] else current
  }

  /** `ex.sets.map((set, index) => ({ ...set, weight, reps }))` with the suggestion's entries. */
  function MergedSets(sets: seq<ExerciseSet>, s: Suggestion): (r: seq<ExerciseSet>)
    ensures |r| == |sets|
    ensures forall i :: 0 <= i < |sets| ==>
      r[i].setNumber == sets[i].setNumber
      && r[i].weight == SuggestedWeight(s.suggestedWeights, i)
      && r[i].reps == SuggestedReps(s.suggestedReps, i, sets[i].reps)
  {
    seq(|sets|, i requires 0 <= i < |sets| =>
      sets[i].(weight := SuggestedWeight(s.suggestedWeights, i), reps := SuggestedReps(s.suggestedReps, i, sets[i].reps)))
  }

  /** The merge in the loading effect: exercises with a suggestion under their name get its entries. */
  function MergeSuggestions(exs: seq<CompletedExercise>, suggestions: Suggestions): (r: seq<CompletedExercise>)
    ensures |r| == |exs|
    ensures forall k :: 0 <= k < |exs| ==>
      r[k].exerciseId == exs[k].exerciseId && r[k].name == exs[k].name
      && (exs[k].name !in suggestions ==> r[k] == exs[k])
      && (exs[k].name in suggestions ==> r[k].sets == MergedSets(exs[k].sets, suggestions[exs[k].name]))
  {
    seq(|exs|, k requires 0 <= k < |exs| =>
      if exs[k].name in suggestions then exs[k].(sets := MergedSets(exs[k].sets, suggestions[exs[k].name])) else exs[k])
  }

  /** A logged workout already saved for the day. */
  datatype SavedWorkout = SavedWorkout(dayNumber: int, exercises: seq<CompletedExercise>)

  /** What the page loads: the plan's day and, when there is one, the workout saved for it. */
  datatype WorkoutData = WorkoutData(dayWorkout: DayWorkout, existingWorkout: Option<SavedWorkout>)

  /** The list the loading effect leaves: the saved workout's, or the plan's with the suggestions merged. */
  function LoadedExercises(data: WorkoutData, suggestions: Suggestions): seq<CompletedExercise> {
    match data.existingWorkout
    case Some(w) => w.exercises
    case None => MergeSuggestions(InitialExercises(data.dayWorkout), suggestions)
  }

  /** Without a suggestion the merge changes nothing. */
  lemma MergeWithoutSuggestions(exs: seq<CompletedExercise>)
    ensures MergeSuggestions(exs, map[]) == exs
  {
  }

  /** The merge keeps every set's number, so a list numbered 1, 2, … stays so. */
  lemma MergeKeepsNumbering(exs: seq<CompletedExercise>, suggestions: Suggestions)
    requires forall k :: 0 <= k < |exs| ==> NumberedFromOne(exs[k].sets)
    ensures var r := MergeSuggestions(exs, suggestions);
      forall k :: 0 <= k < |r| ==> NumberedFromOne(r[k].sets) && |r[k].sets| == |exs[k].sets|
  {
  }

  /** Merging the same suggestions twice is merging them once. */
  lemma MergeTwiceIsOnce(exs: seq<CompletedExercise>, suggestions: Suggestions)
    ensures MergeSuggestions(MergeSuggestions(exs, suggestions), suggestions) == MergeSuggestions(exs, suggestions)
  {
    var once := MergeSuggestions(exs, suggestions);
    forall k | 0 <= k < |exs| && exs[k].name in suggestions
      ensures MergedSets(once[k].sets, suggestions[exs[k].name]) == once[k].sets
    {
      var s := suggestions[exs[k].name];
      assert forall i :: 0 <= i < |exs[k].sets| ==>
        SuggestedReps(s.suggestedReps, i, SuggestedReps(s.suggestedReps, i, exs[k].sets[i].reps))
        == SuggestedReps(s.suggestedReps, i, exs[k].sets[i].reps);
    }
  }

  /**
   * Without a saved workout the page starts from the plan: one exercise per plan exercise, in
   * order, with its id and name and `ex.sets` sets numbered 1, 2, …; a set takes the
   * suggestion's entries where they are nonzero, else weight 0 and the plan's leading reps.
   */
  lemma LoadedFromPlan(data: WorkoutData, suggestions: Suggestions)
    requires data.existingWorkout.None?
    ensures var r := LoadedExercises(data, suggestions);
      var plan := data.dayWorkout.exercises;
      |r| == |plan|
      && forall k :: 0 <= k < |r| ==>
        r[k].exerciseId == plan[k].id && r[k].name == plan[k].name
        && |r[k].sets| == plan[k].sets && NumberedFromOne(r[k].sets)
        && forall i :: 0 <= i < |r[k].sets| ==>
          if plan[k].name in suggestions then
            r[k].sets[i].weight == SuggestedWeight(suggestions[plan[k].name].suggestedWeights, i)
            && r[k].sets[i].reps == SuggestedReps(suggestions[plan[k].name].suggestedReps, i, RepsFromPlan(plan[k].reps))
          else
            r[k].sets[i] == ExerciseSet(i + 1, 0.0, RepsFromPlan(plan[k].reps))
  {
  }

  /** With a saved workout its exercises are used as they are, with no suggestion merged. */
  lemma LoadedFromSaved(data: WorkoutData, suggestions: Suggestions)
    requires data.existingWorkout.Some?
    ensures LoadedExercises(data, suggestions) == data.existingWorkout.value.exercises
  {
  }

  // ----- edit mode -----

  /** `handleToggleExerciseEdit`: the id leaves the set when it is in it and joins it otherwise. */
  function Toggled(editing: set<string>, exerciseId: string): (r: set<string>)
    ensures exerciseId in r <==> exerciseId !in editing
    ensures forall x :: x != exerciseId ==> (x in r <==> x in editing)
  {
    if exerciseId in editing then editing - {exerciseId} else editing + {exerciseId}
  }

  /** Toggling the same exercise twice restores the set. */
  lemma ToggleTwice(editing: set<string>, exerciseId: string)
    ensures Toggled(Toggled(editing, exerciseId), exerciseId) == editing
  {
  }

  /** Toggles of two different exercises commute. */
  lemma TogglesCommute(editing: set<string>, a: string, b: string)
    ensures Toggled(Toggled(editing, a), b) == Toggled(Toggled(editing, b), a)
  {
  }

  /** The request `handleSave` sends: an update of the saved workout, or a new one. */
  datatype SaveRequest = UpdateWorkout(workout: SavedWorkout) | SaveWorkout(workout: SavedWorkout)

  const SaveErrorMessage: string := "Помилка при збереженні тренування"

  /** The page's state: the exercise list, the exercises in edit mode and the save status. */
  class WorkoutPageState {
    var completedExercises: seq<CompletedExercise>
    var editingExercises: set<string>
    var saving: bool
    var saveSuccess: bool
    var saveError: Option<string>

    /** The `useState` initial values. */
    constructor()
      ensures completedExercises == [] && editingExercises == {}
      ensures !saving && !saveSuccess && saveError == None
    {
      completedExercises := [];
      editingExercises := {};
      saving := false;
      saveSuccess := false;
      saveError := None;
    }

    /** The loading effect once the data is there: edit mode is cleared and the list is set. */
    method LoadWorkoutData(data: WorkoutData, suggestions: Suggestions)
      modifies this
      ensures completedExercises == LoadedExercises(data, suggestions) && editingExercises == {}
      ensures saving == old(saving) && saveSuccess == old(saveSuccess) && saveError == old(saveError)
    {
      var initialExercises: seq<CompletedExercise>;
      editingExercises := {};
      if data.existingWorkout.Some? {
        initialExercises := data.existingWorkout.value.exercises;
      } else {
        initialExercises := InitialExercises(data.dayWorkout);
      }
      completedExercises := initialExercises;
      if data.existingWorkout.None? {
        completedExercises := MergeSuggestions(initialExercises, suggestions);
      }
    }

    /** `handleToggleExerciseEdit(exerciseId)` on a copy of the set. */
    method ToggleExerciseEdit(exerciseId: string)
      modifies this
      ensures editingExercises == Toggled(old(editingExercises), exerciseId)
      ensures completedExercises == old(completedExercises)
      ensures saving == old(saving) && saveSuccess == old(saveSuccess) && saveError == old(saveError)
    {
      var next := editingExercises;
      if exerciseId in next {
        next := next - {exerciseId};
      } else {
        next := next + {exerciseId};
      }
      editingExercises := next;
    }

    /** The card's `addSet`, through the page's state setter. */
    method AddSet(exerciseId: string)
      modifies this
      ensures completedExercises == ExerciseEditing.AddSet(old(completedExercises), exerciseId)
      ensures editingExercises == old(editingExercises)
      ensures saving == old(saving) && saveSuccess == old(saveSuccess) && saveError == old(saveError)
    {
      completedExercises := ExerciseEditing.AddSet(completedExercises, exerciseId);
    }

    /** The card's `removeSet(setNumber)`, through the page's state setter. */
    method RemoveSet(exerciseId: string, setNumber: int)
      modifies this
      ensures completedExercises == ExerciseEditing.RemoveSet(old(completedExercises), exerciseId, setNumber)
      ensures editingExercises == old(editingExercises)
      ensures saving == old(saving) && saveSuccess == old(saveSuccess) && saveError == old(saveError)
    {
      completedExercises := ExerciseEditing.RemoveSet(completedExercises, exerciseId, setNumber);
    }

    /** The card's `updateSet(setNumber, field, value)`, through the page's state setter. */
    method UpdateSet(exerciseId: string, setNumber: int, edit: ExerciseEditing.SetEdit)
      modifies this
      ensures completedExercises == ExerciseEditing.UpdateSet(old(completedExercises), exerciseId, setNumber, edit)
      ensures editingExercises == old(editingExercises)
      ensures saving == old(saving) && saveSuccess == old(saveSuccess) && saveError == old(saveError)
    {
      completedExercises := ExerciseEditing.UpdateSet(completedExercises, exerciseId, setNumber, edit);
    }

    /**
     * `handleSave` up to the request: nothing happens without data or a signed-in user;
     * otherwise the status is reset and the current list is sent, as an update of the saved
     * workout when there is one and as a new workout for the plan's day otherwise.
     */
    method HandleSave(data: Option<WorkoutData>, signedIn: bool) returns (request: Option<SaveRequest>)
      modifies this
      ensures request.Some? <==> data.Some? && signedIn
      ensures request.Some? ==> saving && !saveSuccess && saveError == None
      ensures request.Some? && data.value.existingWorkout.Some? ==>
        request.value == UpdateWorkout(data.value.existingWorkout.value.(exercises := completedExercises))
      ensures request.Some? && data.value.existingWorkout.None? ==>
        request.value == SaveWorkout(SavedWorkout(data.value.dayWorkout.day, completedExercises))
      ensures request.None? ==> saving == old(saving) && saveSuccess == old(saveSuccess) && saveError == old(saveError)
      ensures completedExercises == old(completedExercises) && editingExercises == old(editingExercises)
    {
      if data.None? || !signedIn {
        return None;
      }
      saving := true;
      saveSuccess := false;
      saveError := None;
      match data.value.existingWorkout
      case Some(existing) =>
        request := Some(UpdateWorkout(existing.(exercises := completedExercises)));
      case None =>
        request := Some(SaveWorkout(SavedWorkout(data.value.dayWorkout.day, completedExercises)));
    }

    /** `onCommonSuccess`: the save is shown as done and no exercise stays in edit mode. */
    method SaveSucceeded()
      modifies this
      ensures saveSuccess && editingExercises == {}
      ensures completedExercises == old(completedExercises) && saving == old(saving) && saveError == old(saveError)
    {
      saveSuccess := true;
      editingExercises := {};
    }

    /** The timer `onCommonSuccess` starts: the success notice goes away. */
    method SuccessTimerFired()
      modifies this
      ensures !saveSuccess
      ensures completedExercises == old(completedExercises) && editingExercises == old(editingExercises)
      ensures saving == old(saving) && saveError == old(saveError)
    {
      saveSuccess := false;
    }

    /** `onCommonError`: the error message is shown. */
    method SaveFailed()
      modifies this
      ensures saveError == Some(SaveErrorMessage)
      ensures completedExercises == old(completedExercises) && editingExercises == old(editingExercises)
      ensures saving == old(saving) && saveSuccess == old(saveSuccess)
    {
      saveError := Some(SaveErrorMessage);
    }

    /** `onCommonSettled`: the request is over. */
    method SaveSettled()
      modifies this
      ensures !saving
      ensures completedExercises == old(completedExercises) && editingExercises == old(editingExercises)
      ensures saveSuccess == old(saveSuccess) && saveError == old(saveError)
    {
      saving := false;
    }
  }
}
