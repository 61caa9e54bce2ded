/**
 * The set-list edits of a logged workout's exercise card: `addSet`, `removeSet(setNumber)`
 * and `updateSet(setNumber, field, value)`. Each hands the state setter a copy of the
 * exercise list in which only the exercises with the card's id get a new set list.
 */
module ExerciseEditing {
  import opened Types

  /** `[field]: value`: the field an edit writes and the value it writes there. */
  datatype SetEdit = WeightTo(weight: real) | RepsTo(reps: int)

  // ----- the copy of the exercise list -----

  /**
   * `prev.map(item => item.exerciseId === exerciseId ? { ...item, sets: change(item.sets) } : item)`:
   * the list keeps its length and its order and every exercise keeps its id and its name;
   * the exercises with this id get the changed sets, the others stay as they are.
   */
  function EditSets(prev: seq<CompletedExercise>, exerciseId: string, change: seq<ExerciseSet> -> seq<ExerciseSet>)
    : (r: seq<CompletedExercise>)
    ensures |r| == |prev|
    ensures forall k :: 0 <= k < |prev| ==>
      r[k].exerciseId == prev[k].exerciseId && r[k].name == prev[k].name
      && (prev[k].exerciseId == exerciseId ==> r[k].sets == change(prev[k].sets))
      && (prev[k].exerciseId != exerciseId ==> r[k] == prev[k])
  {
    seq(|prev|, k requires 0 <= k < |prev| =>
      if prev[k].exerciseId == exerciseId then prev[k].(sets := change(prev[k].sets)) else prev[k])
  }

  // ----- the three set-list changes -----

  /** `[...sets, { setNumber: sets.length + 1, weight: 0, reps: 0 }]`. */
  function SetAdded(sets: seq<ExerciseSet>): seq<ExerciseSet> {
    sets + [ExerciseSet(|sets| + 1, 0.0, 0)]
  }

  /** `sets.filter(set => set.setNumber !== setNumber)`. */
  function SetsWithout(sets: seq<ExerciseSet>, setNumber: int): (r: seq<ExerciseSet>)
    ensures |r| <= |sets|
    decreases |sets|
  {
    if |sets| == 0 then []
    else (if sets[0].setNumber != setNumber then [sets[0]] else []) + SetsWithout(sets[1..], setNumber)
  }

  /** One set with `[field]: value` written over it: the number stays, and so does the other field. */
  function Edited(s: ExerciseSet, edit: SetEdit): (r: ExerciseSet)
    ensures r.setNumber == s.setNumber
    ensures edit.WeightTo? ==> r.reps == s.reps
    ensures edit.RepsTo? ==> r.weight == s.weight
  {
    match edit
    case WeightTo(w) => s.(weight := w)
    case RepsTo(n) => s.(reps := n)
  }

  /** `sets.map(set => set.setNumber === setNumber ? { ...set, [field]: value } : set)`. */
  function SetsUpdated(sets: seq<ExerciseSet>, setNumber: int, edit: SetEdit): (r: seq<ExerciseSet>)
    ensures |r| == |sets|
    ensures forall k :: 0 <= k < |sets| ==> r[k].setNumber == sets[k].setNumber
    ensures forall k :: 0 <= k < |sets| && sets[k].setNumber != setNumber ==> r[k] == sets[k]
    ensures forall k :: 0 <= k < |sets| && sets[k].setNumber == setNumber ==> r[k] == Edited(sets[k], edit)
  {
    seq(|sets|, k requires 0 <= k < |sets| => if sets[k].setNumber == setNumber then Edited(sets[k], edit) else sets[k])
  }

  // ----- the handlers -----

  /**
   * `addSet` of the card for `exerciseId`: each exercise with that id keeps its sets and
   * gets one more; every other exercise is unchanged.
   */
  function AddSet(prev: seq<CompletedExercise>, exerciseId: string): (r: seq<CompletedExercise>)
    ensures |r| == |prev|
    ensures forall k :: 0 <= k < |prev| && prev[k].exerciseId == exerciseId ==>
      r[k].exerciseId == exerciseId && r[k].name == prev[k].name
      && |r[k].sets| == |prev[k].sets| + 1 && r[k].sets[..|prev[k].sets|] == prev[k].sets
    ensures forall k :: 0 <= k < |prev| && prev[k].exerciseId != exerciseId ==> r[k] == prev[k]
  {
    EditSets(prev, exerciseId, SetAdded)
  }

  /**
   * `removeSet(setNumber)` of the card for `exerciseId`: an exercise with that id never
   * gains a set; every other exercise is unchanged.
   */
  function RemoveSet(prev: seq<CompletedExercise>, exerciseId: string, setNumber: int): (r: seq<CompletedExercise>)
    ensures |r| == |prev|
    ensures forall k :: 0 <= k < |prev| && prev[k].exerciseId == exerciseId ==>
      r[k].exerciseId == exerciseId && r[k].name == prev[k].name && |r[k].sets| <= |prev[k].sets|
    ensures forall k :: 0 <= k < |prev| && prev[k].exerciseId != exerciseId ==> r[k] == prev[k]
  {
    EditSets(prev, exerciseId, sets => SetsWithout(sets, setNumber))
  }

  /**
   * `updateSet(setNumber, field, value)` of the card for `exerciseId`: an exercise with that
   * id keeps its number of sets and every set number; every other exercise is unchanged.
   */
  function UpdateSet(prev: seq<CompletedExercise>, exerciseId: string, setNumber: int, edit: SetEdit)
    : (r: seq<CompletedExercise>)
    ensures |r| == |prev|
    ensures forall k :: 0 <= k < |prev| && prev[k].exerciseId == exerciseId ==>
      r[k].exerciseId == exerciseId && r[k].name == prev[k].name && |r[k].sets| == |prev[k].sets|
      && forall i :: 0 <= i < |prev[k].sets| ==> r[k].sets[i].setNumber == prev[k].sets[i].setNumber
    ensures forall k :: 0 <= k < |prev| && prev[k].exerciseId != exerciseId ==> r[k] == prev[k]
  {
    EditSets(prev, exerciseId, sets => SetsUpdated(sets, setNumber, edit))
  }

  // ----- what each change does to a set list -----

  /** Adding keeps the numbering 1, 2, … when the list had it: the new set is numbered one past the last. */
  lemma SetAddedKeepsNumbering(sets: seq<ExerciseSet>)
    requires NumberedFromOne(sets)
    ensures NumberedFromOne(SetAdded(sets)) && |SetAdded(sets)| == |sets| + 1
    ensures SetAdded(sets)[..|sets|] == sets && SetAdded(sets)[|sets|] == ExerciseSet(|sets| + 1, 0.0, 0)
  {
    assert SetAdded(sets)[..|sets|] == sets;
  }

  /** The filter keeps exactly the sets with another number, unchanged: it renumbers nothing. */
  lemma {:induction false} SetsWithoutMembers(sets: seq<ExerciseSet>, setNumber: int)
    ensures forall x :: x in SetsWithout(sets, setNumber) <==> x in sets && x.setNumber != setNumber
    decreases |sets|
  {
    if |sets| > 0 {
      SetsWithoutMembers(sets[1..], setNumber);
      assert sets == [sets[0]] + sets[1..];
    }
  }

  /** The filter distributes over concatenation: it keeps the order of what it keeps. */
  lemma {:induction false} SetsWithoutAppend(a: seq<ExerciseSet>, b: seq<ExerciseSet>, setNumber: int)
    ensures SetsWithout(a + b, setNumber) == SetsWithout(a, setNumber) + SetsWithout(b, setNumber)
    decreases |a|
  {
    if |a| == 0 {
      assert a + b == b;
    } else {
      assert (a + b)[0] == a[0] && (a + b)[1..] == a[1..] + b;
      SetsWithoutAppend(a[1..], b, setNumber);
      var head := if a[0].setNumber != setNumber then [a[0]] else [];
      assert SetsWithout(a + b, setNumber) == head + (SetsWithout(a[1..], setNumber) + SetsWithout(b, setNumber));
      assert SetsWithout(a, setNumber) == head + SetsWithout(a[1..], setNumber);
    }
  }

  /** A number no set carries removes nothing. */
  lemma {:induction false} SetsWithoutAbsent(sets: seq<ExerciseSet>, setNumber: int)
    requires forall k :: 0 <= k < |sets| ==> sets[k].setNumber != setNumber
    ensures SetsWithout(sets, setNumber) == sets
    decreases |sets|
  {
    if |sets| > 0 {
      SetsWithoutAbsent(sets[1..], setNumber);
      assert sets == [sets[0]] + sets[1..];
    }
  }

  /** Every set carrying the number goes. */
  lemma {:induction false} SetsWithoutAll(sets: seq<ExerciseSet>, setNumber: int)
    requires forall k :: 0 <= k < |sets| ==> sets[k].setNumber == setNumber
    ensures SetsWithout(sets, setNumber) == []
    decreases |sets|
  {
    if |sets| > 0 {
      SetsWithoutAll(sets[1..], setNumber);
    }
  }

  /**
   * On sets numbered 1, 2, …, removing number `n` drops exactly the set at position `n - 1`
   * and leaves the sets after it with their old numbers; any other number removes nothing.
   */
  lemma SetsWithoutNumbered(sets: seq<ExerciseSet>, setNumber: int)
    requires NumberedFromOne(sets)
    ensures 1 <= setNumber <= |sets| ==> SetsWithout(sets, setNumber) == sets[..setNumber - 1] + sets[setNumber..]
    ensures !(1 <= setNumber <= |sets|) ==> SetsWithout(sets, setNumber) == sets
  {
    if 1 <= setNumber <= |sets| {
      var i := setNumber - 1;
      var pre, x, post := sets[..i], sets[i], sets[i + 1..];
      assert sets == pre + ([x] + post);
      assert forall k :: 0 <= k < |pre| ==> pre[k].setNumber == k + 1;
      assert forall k :: 0 <= k < |post| ==> post[k].setNumber == k + i + 2;
      SetsWithoutOne(pre, x, post, setNumber);
      assert sets[setNumber..] == post;
    } else {
      SetsWithoutAbsent(sets, setNumber);
    }
  }

  /** Removing the number only one set carries drops just that set. */
  lemma SetsWithoutOne(pre: seq<ExerciseSet>, x: ExerciseSet, post: seq<ExerciseSet>, setNumber: int)
    requires x.setNumber == setNumber
    requires forall k :: 0 <= k < |pre| ==> pre[k].setNumber != setNumber
    requires forall k :: 0 <= k < |post| ==> post[k].setNumber != setNumber
    ensures SetsWithout(pre + ([x] + post), setNumber) == pre + post
  {
    SetsWithoutAppend(pre, [x] + post, setNumber);
    SetsWithoutAppend([x], post, setNumber);
    SetsWithoutAbsent(pre, setNumber);
    SetsWithoutAbsent(post, setNumber);
    assert SetsWithout([x], setNumber) == [];
    assert SetsWithout([x] + post, setNumber) == post;
  }

  /** Removing the set that adding appended gives the list back: the two are inverse on numbered lists. */
  lemma RemoveUndoesAdd(sets: seq<ExerciseSet>)
    requires NumberedFromOne(sets)
    ensures SetsWithout(SetAdded(sets), |sets| + 1) == sets
  {
    SetsWithoutAppend(sets, [ExerciseSet(|sets| + 1, 0.0, 0)], |sets| + 1);
    SetsWithoutAbsent(sets, |sets| + 1);
    assert SetsWithout([ExerciseSet(|sets| + 1, 0.0, 0)], |sets| + 1) == [];
  }

  /** An update only writes its own field: numbers and the other field stay. */
  lemma UpdateWritesOneField(sets: seq<ExerciseSet>, setNumber: int, edit: SetEdit)
    ensures var r := SetsUpdated(sets, setNumber, edit);
      forall k :: 0 <= k < |sets| ==>
        r[k].setNumber == sets[k].setNumber
        && (edit.WeightTo? ==> r[k].reps == sets[k].reps
                               && r[k].weight == (if sets[k].setNumber == setNumber then edit.weight else sets[k].weight))
        && (edit.RepsTo? ==> r[k].weight == sets[k].weight
                             && r[k].reps == (if sets[k].setNumber == setNumber then edit.reps else sets[k].reps))
  {
  }

  /** Writing the same value twice is writing it once, and a later write to the same field wins. */
  lemma UpdateLastWins(sets: seq<ExerciseSet>, setNumber: int, first: SetEdit, second: SetEdit)
    requires first.WeightTo? == second.WeightTo?
    ensures SetsUpdated(SetsUpdated(sets, setNumber, first), setNumber, second) == SetsUpdated(sets, setNumber, second)
  {
  }

  /** Updates keep the numbering. */
  lemma UpdateKeepsNumbering(sets: seq<ExerciseSet>, setNumber: int, edit: SetEdit)
    requires NumberedFromOne(sets)
    ensures NumberedFromOne(SetsUpdated(sets, setNumber, edit))
  {
  }

  // ----- the card's controls -----

  /** A click on the card: the `+` of any row, the `−` of a row, or a change in a row's input. */
  datatype SetAction = Add | Remove(setNumber: int) | Update(setNumber: int, edit: SetEdit)

  /**
   * Whether the card shows the control: every control sits in a set's row, and the `−` is
   * shown only while the exercise has more than one set.
   */
  predicate Offered(sets: seq<ExerciseSet>, a: SetAction) {
    match a
    case Add => |sets| > 0
    case Remove(n) => |sets| > 1 && exists k :: 0 <= k < |sets| && sets[k].setNumber == n
    case Update(n, _) => exists k :: 0 <= k < |sets| && sets[k].setNumber == n
  }

  /** The card's handlers as written. */
  function Applied(sets: seq<ExerciseSet>, a: SetAction): seq<ExerciseSet> {
    match a
    case Add => SetAdded(sets)
    case Remove(n) => SetsWithout(sets, n)
    case Update(n, e) => SetsUpdated(sets, n, e)
  }

  /** The clicks in turn, each on a control the card shows at that moment. */
  predicate AllOffered(sets: seq<ExerciseSet>, actions: seq<SetAction>)
    decreases |actions|
  {
    |actions| == 0 || (Offered(sets, actions[0]) && AllOffered(Applied(sets, actions[0]), actions[1..]))
  }

  function Run(sets: seq<ExerciseSet>, actions: seq<SetAction>): seq<ExerciseSet>
    decreases |actions|
  {
    if |actions| == 0 then sets else Run(Applied(sets, actions[0]), actions[1..])
  }

  /**
   * As written, the `−` can empty the list: from sets 1 and 2, removing set 1 and adding one
   * leaves two sets numbered 2, both rows show the `−`, and one click on it removes both.
   */
  lemma RemoveCanEmptySets()
    ensures var start := [ExerciseSet(1, 0.0, 8), ExerciseSet(2, 0.0, 8)];
      var actions := [Remove(1), Add, Remove(2)];
      AllOffered(start, actions) && Run(start, actions) == []
  {
    var start := [ExerciseSet(1, 0.0, 8), ExerciseSet(2, 0.0, 8)];
    var s1 := [ExerciseSet(2, 0.0, 8)];
    var s2 := [ExerciseSet(2, 0.0, 8), ExerciseSet(2, 0.0, 0)];
    RemoveFirstOfTwo();
    assert SetAdded(s1) == s2;
    SetsWithoutAll(s2, 2);
    assert s2[0].setNumber == 2;
    assert AllOffered(s2, [Remove(2)]) && Run(s2, [Remove(2)]) == [] by {
      assert Applied(s2, Remove(2)) == [];
      assert [Remove(2)][1..] == [];
    }
    assert AllOffered(s1, [Add, Remove(2)]) && Run(s1, [Add, Remove(2)]) == [] by {
      assert Applied(s1, Add) == s2;
      assert [Add, Remove(2)][1..] == [Remove(2)];
    }
    var actions := [Remove(1), Add, Remove(2)];
    assert start[0].setNumber == 1;
    assert Applied(start, Remove(1)) == s1;
    assert actions[1..] == [Add, Remove(2)];
  }

  lemma RemoveFirstOfTwo()
    ensures SetsWithout([ExerciseSet(1, 0.0, 8), ExerciseSet(2, 0.0, 8)], 1) == [ExerciseSet(2, 0.0, 8)]
  {
    var start := [ExerciseSet(1, 0.0, 8), ExerciseSet(2, 0.0, 8)];
    SetsWithoutNumbered(start, 1);
    assert start[..0] + start[1..] == [ExerciseSet(2, 0.0, 8)];
  }

  // ----- removal that renumbers -----

  /** The sets numbered 1, 2, … again in list order, other fields kept. */
  function Renumbered(sets: seq<ExerciseSet>): (r: seq<ExerciseSet>)
    ensures |r| == |sets| && NumberedFromOne(r)
    ensures forall k :: 0 <= k < |sets| ==> r[k].weight == sets[k].weight && r[k].reps == sets[k].reps
  {
    seq(|sets|, k requires 0 <= k < |sets| => sets[k].(setNumber := k + 1))
  }

  /** Removal as the `−` control evidently means it: drop the set, then number the rest 1, 2, … again. */
  function SetsWithoutRenumbered(sets: seq<ExerciseSet>, setNumber: int): seq<ExerciseSet> {
    Renumbered(SetsWithout(sets, setNumber))
  }

  /** `removeSet(setNumber)` with the renumbering removal. */
  function RemoveSetRenumbered(prev: seq<CompletedExercise>, exerciseId: string, setNumber: int): seq<CompletedExercise> {
    EditSets(prev, exerciseId, sets => SetsWithoutRenumbered(sets, setNumber))
  }

  /** The card's handlers with the renumbering removal. */
  function AppliedFixed(sets: seq<ExerciseSet>, a: SetAction): seq<ExerciseSet> {
    match a
    case Add => SetAdded(sets)
    case Remove(n) => SetsWithoutRenumbered(sets, n)
    case Update(n, e) => SetsUpdated(sets, n, e)
  }

  predicate AllOfferedFixed(sets: seq<ExerciseSet>, actions: seq<SetAction>)
    decreases |actions|
  {
    |actions| == 0 || (Offered(sets, actions[0]) && AllOfferedFixed(AppliedFixed(sets, actions[0]), actions[1..]))
  }

  function RunFixed(sets: seq<ExerciseSet>, actions: seq<SetAction>): seq<ExerciseSet>
    decreases |actions|
  {
    if |actions| == 0 then sets else RunFixed(AppliedFixed(sets, actions[0]), actions[1..])
  }

  /** One shown control keeps a numbered, nonempty list numbered and nonempty. */
  lemma AppliedFixedKeepsSets(sets: seq<ExerciseSet>, a: SetAction)
    requires NumberedFromOne(sets) && |sets| > 0 && Offered(sets, a)
    ensures NumberedFromOne(AppliedFixed(sets, a)) && |AppliedFixed(sets, a)| > 0
  {
    match a
    case Add => SetAddedKeepsNumbering(sets);
    case Remove(n) =>
      var k :| 0 <= k < |sets| && sets[k].setNumber == n;
      SetsWithoutNumbered(sets, n);
    case Update(n, e) => UpdateKeepsNumbering(sets, n, e);
  }

  /**
   * With the renumbering removal, whatever the user clicks among the shown controls, the
   * sets stay numbered 1, 2, … and the list never becomes empty.
   */
  lemma {:induction false} RunFixedKeepsSets(sets: seq<ExerciseSet>, actions: seq<SetAction>)
    requires NumberedFromOne(sets) && |sets| > 0 && AllOfferedFixed(sets, actions)
    ensures NumberedFromOne(RunFixed(sets, actions)) && |RunFixed(sets, actions)| > 0
    decreases |actions|
  {
    if |actions| > 0 {
      AppliedFixedKeepsSets(sets, actions[0]);
      RunFixedKeepsSets(AppliedFixed(sets, actions[0]), actions[1..]);
    }
  }
}
