/** The records the parsers and the workout page exchange. */
module Types {

  datatype ExerciseKind = Normal | Superset | Dropset

  /** A planned exercise: `sets` is a count, `reps` the text of a repetition range such as "8-12". */
  datatype Exercise = Exercise(id: string, name: string, sets: nat, reps: string, kind: ExerciseKind, notes: string)

  /** One day of a plan, numbered as written after `День`. */
  datatype DayWorkout = DayWorkout(day: int, exercises: seq<Exercise>)

  /** One performed set: its number within the exercise, the weight in kilograms and the repetitions. */
  datatype ExerciseSet = ExerciseSet(setNumber: int, weight: real, reps: int)

  /** Sets numbered 1, 2, … in list order. */
  predicate NumberedFromOne(sets: seq<ExerciseSet>) {
    forall k :: 0 <= k < |sets| ==> sets[k].setNumber == k + 1
  }

  /** A logged exercise with its sets. */
  datatype CompletedExercise = CompletedExercise(exerciseId: string, name: string, sets: seq<ExerciseSet>)

  /**
   * The source of generated identifiers: the `n`-th identifier the parse asks for. The
   * source builds them from the clock and a random number; here they are a parameter.
   */
  type IdSupply = nat -> string
}
