# Workout planner: plan and history parsers, set editing, workout page

This project models in Dafny the text-processing and list-editing core of a workout
planner. The planner is a web app: a user pastes a weekly plan, logs workouts against it
and imports old training logs. Text in it is Ukrainian. What is modelled:

- **The plan parser** (`parseWorkoutPlan`, `parseExercises`, `parseExercise`,
  `formatExerciseForDisplay`).
  - It cleans the pasted text (CR LF to LF, runs of three or more line feeds to two, trim).
  - It finds every `День <n>` day marker, case-insensitively and anywhere in the text.
  - It cuts the text into one span per marker and reads the span's lines with an
    accumulator: `N. name` opens an exercise, and later non-empty lines become its details.
  - Kind, sets and reps are read from the details with defaults.
- **The history parser** (`parseHistoryWorkouts`, `parseWeekBlock`, `parseHistoryExercises`).
  - It segments the text twice: first by `Тиждень: d.m.yyyy - d.m.yyyy` week headers, and
    fails when there is none; then by day markers inside each week.
  - A line state machine tells exercise headers from set lines (`W кг × R` or a bare `R`).
  - Sets are numbered by arrival order, and exercises without sets are dropped, as are days
    without exercises.
  - Each workout is dated by the week's start date plus `dayNumber - 1` days.
- **The history formatter** (`formatHistoryWorkout`) and the constant import example
  (`getImportExample`).
- **The set-list edits of an exercise card** (`addSet`, `removeSet`, `updateSet`).
  - Both copies of the card component do the same copy-and-replace on `CompletedExercise[]`.
  - The set controls the card shows are modelled as well.
- **The workout page** (`WorkoutPage`).
  - It builds the initial sets from a plan day and merges suggested weights and reps into them.
  - It toggles per-exercise edit mode.
  - Its state (exercises, editing set, save flags) is a class whose methods are the
    page's handlers.

Every regular expression of the core is written out as an explicit character-level
matcher (`Segment`, `WorkoutParser`, `HistoryLines`). Each matcher follows the regex's
greedy or lazy choices and its `i` flag for the Cyrillic keywords. No regex engine is
modelled. Generated ids come from an injected supply `ids: nat -> string`, where the n-th
exercise created gets `ids(n)`. Weights are exact `real`s. Dates are day numbers counted
from 1 January 1970.

Modules:

- `Wrappers`: `Option`, `Result`.
- `Types`: the app's records.
- `Text`: character classes, runs, trimming, splitting, cleaning, case folding, decimal text.
- `Blocks`: grouping tagged lines into blocks, numbering.
- `Calendar`: the civil calendar behind `new Date(y, m, d)`.
- `Segment`: the marker matchers, `matchAll` and the spans.
- `WorkoutParser`.
- `HistoryLines`: the line classifier of the history parser.
- `HistoryParser`.
- `HistoryFormat`: the formatter and its round trip with the parser.
- `HistoryExample`: the import example.
- `ExerciseEditing`.
- `WorkoutPage`.

The loops of the source are methods with loop invariants: `ParseExercises`, `ParseDays`,
`ParseHistoryExercises`, `ParseWeekDays`, `ParseWeeks`, `FormatHistoryWorkout` and
`WriteSets`. `ParseWorkoutPlan`, `ParseWeekBlock` and `ParseHistoryWorkouts` have no loop
of their own: they clean and segment the text and call `ParseDays`, `ParseWeekDays` and
`ParseWeeks`. Each of these methods is proved equal to a specification function, and the
properties are proved about those functions.

## Model

| member | source | states |
|---|---|---|
| Text.RunEnd | src/lib/parsers/workoutParser.ts:46 | the end of the maximal run of a character class from a position: every character before it is in the class and the one at it is not |
| Text.Trim | src/lib/parsers/workoutParser.ts:44 | `trim()`: the result is the text between the leading and the trailing white space, and neither of its ends is white space |
| Text.TrimIdempotent | src/lib/parsers/workoutParser.ts:9 | trimming a trimmed text changes nothing |
| Text.TrimOfTrimmed | src/lib/parsers/historyParser.ts:143 | a text whose ends are not white space is its own trim |
| Text.Split | src/lib/parsers/workoutParser.ts:40 | `split('\n')`: at least one piece, no piece holds the separator, and joining the pieces with the separator gives the text back |
| Text.SplitJoin | src/lib/parsers/historyParser.ts:112 | splitting the join of separator-free pieces gives the pieces back, so split and join are inverse |
| Text.SplitTwoLines | src/lib/parsers/workoutParser.ts:90-91 | two line-feed-free texts joined by a line feed split into exactly those two lines |
| Text.ReplaceCrLf | src/lib/parsers/workoutParser.ts:7 | `.replace(/\r\n/g, '\n')` never lengthens the text |
| Text.CrLfRoundTrip | src/lib/parsers/workoutParser.ts:7 | replacing CR LF by LF undoes writing every LF as CR LF |
| Text.ReplaceCrLfWithoutCr | src/lib/parsers/workoutParser.ts:7 | a text without CR is unchanged by the replacement |
| Text.CollapseBlankLines | src/lib/parsers/workoutParser.ts:8 | `.replace(/\n{3,}/g, '\n\n')` never lengthens the text and keeps it empty or non-empty and whether it starts with LF |
| Text.CollapseLeavesNoTriple | src/lib/parsers/workoutParser.ts:8 | after the collapse no three line feeds follow each other |
| Text.CleanText | src/lib/parsers/workoutParser.ts:6-9 | the cleaned text has no three consecutive line feeds, and neither of its ends is white space |
| Text.CleanTextIgnoresCrLf | src/lib/parsers/workoutParser.ts:6-9 | a text with CR LF line ends cleans to the same text as with LF line ends |
| Text.CleanTextNotIdempotent | src/lib/parsers/historyParser.ts:39-42 | cleaning is not idempotent: "a\r\r\nb" cleans to "a\r\nb", which cleans again to "a\nb" |
| Text.LowerIdempotent | src/lib/parsers/workoutParser.ts:70-71 | the `i` flag's case folding is idempotent: a folded text folds to itself, so a lower-case keyword is its own folded form |
| Text.MatchesAtShift | src/lib/parsers/workoutParser.ts:70 | a keyword match stays a match when text is put before it |
| Text.NatText | src/lib/parsers/workoutParser.ts:91 | the decimal text of a number is non-empty digits that read back as the number |
| Blocks.GroupsFollowOpeners | src/lib/parsers/workoutParser.ts:48-56 | the blocks of a tagged line list are named by the opening lines, one block per opener, in order |
| Blocks.NoOpenerNoGroups | src/lib/parsers/workoutParser.ts:57 | lines before any opener form no block: without an opener there are no blocks and every item is pending |
| Blocks.TagsCons | src/lib/parsers/workoutParser.ts:43-60 | an opener starts a new block holding the items up to the next opener; an item joins the block before it; a skipped line changes nothing |
| Blocks.NumberedPush | src/lib/parsers/historyParser.ts:134-138 | numbering one more item appends its image at the next position |
| Calendar.MarchYearLength | src/lib/parsers/historyParser.ts:60 | consecutive March-based years differ by 366 days exactly when the later one is a Gregorian leap year, else 365 |
| Calendar.MonthOffsets | src/lib/parsers/historyParser.ts:60 | the month offsets give the months their 31, 30, … days |
| Calendar.NextMonthStart | src/lib/parsers/historyParser.ts:60 | the first day of the next month is the first day of this month plus the month's length, including December to January |
| Calendar.EpochIsDayZero | src/lib/parsers/historyParser.ts:60 | 1 January 1970 is day 0 |
| Calendar.TwoDigitYear | src/lib/parsers/historyParser.ts:60 | `new Date` reads the years 0 to 99 as 1900 to 1999: a date in year `y` of that range is the date in year `1900 + y` |
| Calendar.LocalDate | src/lib/parsers/historyParser.ts:60 | with an in-range month index, `new Date(y, m, d)` is the civil day number of that date |
| Calendar.LocalDateDayRollsOver | src/lib/parsers/historyParser.ts:96-97 | an out-of-range day field rolls over: day `d` is `d - 1` days after day 1 of the month |
| Calendar.LocalDateMonthRollsOver | src/lib/parsers/historyParser.ts:60 | month index 12 is January of the next year |
| Calendar.LocalDateInMonth | src/lib/parsers/historyParser.ts:96-97 | inside a month the next day number is one more, and past the month's last day comes the next month's first |
| Segment.DayMarkerAt | src/lib/parsers/workoutParser.ts:11 | `/День\s+(\d+)/i` at a position: the keyword in any case, at least one space, the maximal digit run, and nothing after it is a digit |
| Segment.DayMarkerText | src/lib/parsers/workoutParser.ts:11 | a keyword, spaces and a maximal digit run match, with the digits' value as the day number |
| Segment.DateField | src/lib/parsers/historyParser.ts:45 | `(\d{1,2})[.\-/]`: one or two digits and any of the three separators, with the digits' value |
| Segment.DateAt | src/lib/parsers/historyParser.ts:45 | a day, month and four-digit year field, the year read from the last four digits |
| Segment.DateAtAnySeparators | src/lib/parsers/historyParser.ts:45 | a `dd?mm?yyyy` date reads as its three fields whichever of `.`, `-` and `/` each separator is, so they are interchangeable and may be mixed |
| Segment.WeekHeaderAt | src/lib/parsers/historyParser.ts:45 | the week header at a position: the keyword `Тиждень:` in any case, optional spaces, two dates around a dash; its value is the start date |
| Segment.MarkerAt | src/lib/parsers/historyParser.ts:45-46 | a match starts with the keyword's first letter and does not contain that letter anywhere after its start, so matches cannot nest |
| Segment.AttemptsWellFormed | src/lib/parsers/workoutParser.ts:12 | the matches tried at every position are well formed and none starts inside another |
| Segment.ScanFindsEvery | src/lib/parsers/workoutParser.ts:12 | every position where the pattern matches is the start of one of the matches the scan collects |
| Segment.MatchAll | src/lib/parsers/workoutParser.ts:12 | `[...matchAll]`: every hit is the match at its start, and the hits are in order and do not overlap |
| Segment.MatchAllFindsEvery | src/lib/parsers/historyParser.ts:46 | every position with a match is a hit of `matchAll` |
| Segment.MatchAllEmptyIff | src/lib/parsers/workoutParser.ts:14-16 | `matchAll` finds nothing exactly when no position matches |
| Segment.MatchAllIncreasing | src/lib/parsers/workoutParser.ts:18-23 | the hits are increasing and inside the text, as the span arithmetic needs |
| Segment.SpanEnd | src/lib/parsers/workoutParser.ts:21 | a span ends where the next match starts, and the last span ends at the end of the text |
| Segment.Span | src/lib/parsers/workoutParser.ts:20-23 | a span is the text from its match's start to its end, and it begins with the match itself |
| Segment.SpanMapAt | src/lib/parsers/historyParser.ts:63-67 | the j-th result of mapping over the spans is the function of the j-th span |
| Segment.SpansFrom | src/lib/parsers/workoutParser.ts:18-23 | one span per match, the j-th being span j |
| Segment.SpansCover | src/lib/parsers/workoutParser.ts:18-23 | the spans from match i onward concatenate to the text from match i's start to the end, so the spans are contiguous and cover everything after the first match |
| WorkoutParser.PlanHeaderRest | src/lib/parsers/workoutParser.ts:46 | `^(\d+)\.\s+(.+)`: a captured name is non-empty and line-terminator-free, and only a line starting with a digit has one |
| WorkoutParser.PlanHeaderText | src/lib/parsers/workoutParser.ts:46 | digits, a dot, spaces and a name starting with a non-space capture exactly that name |
| WorkoutParser.NoDigitNoHeader | src/lib/parsers/workoutParser.ts:46 | a line not starting with a digit opens no exercise |
| WorkoutParser.SupersetAnyCase | src/lib/parsers/workoutParser.ts:70-84 | the kind `KindOf` reads: "суперсет" in any letter case anywhere in the details makes a superset, whatever else the details say, so superset wins over dropset |
| WorkoutParser.DropsetAnyCase | src/lib/parsers/workoutParser.ts:71-84 | "дропсет" in any letter case makes a dropset when "суперсет" does not occur |
| WorkoutParser.CapitalisedSuperset | src/lib/parsers/workoutParser.ts:70 | "Суперсет з жимом" is a superset: the capitalised keyword is recognised |
| WorkoutParser.FirstSets | src/lib/parsers/workoutParser.ts:73 | `match` finds the leftmost match: the pattern `(\d+)\s*підход` matches at the position found, when it is inside the text, and at no position before it; the end of the text means no match at all |
| WorkoutParser.SetsCountFirstMatch | src/lib/parsers/workoutParser.ts:73-74 | `SetsCount` is the number of the leftmost match: when the pattern matches at `p` and nowhere before, the details have that many sets |
| WorkoutParser.SetsCountNoMatch | src/lib/parsers/workoutParser.ts:74 | when the pattern matches nowhere, the default 3 sets |
| WorkoutParser.SetsCountDefault | src/lib/parsers/workoutParser.ts:74 | without "підход" in any case the exercise has the default 3 sets |
| WorkoutParser.SetsCountAfterWords | src/lib/parsers/workoutParser.ts:73-74 | details whose first digit opens a number followed by spaces and "підход" have that number of sets, whatever words come before it |
| WorkoutParser.SetsOfUsualDetails | src/lib/parsers/workoutParser.ts:73-74 | "3 підходи по 8-12" has 3 sets |
| WorkoutParser.SetsOfSupersetDetails | src/lib/parsers/workoutParser.test.ts:52-59 | "Суперсет 3 підходи по 8-12" has 3 sets: the keyword before the count is skipped |
| WorkoutParser.RepsOfSupersetDetails | src/lib/parsers/workoutParser.test.ts:52-59 | "Суперсет 3 підходи по 8-12" has reps "3", the first run of digits |
| WorkoutParser.SupersetDetails | src/lib/parsers/workoutParser.test.ts:52-59 | the details of the superset test give a superset of 3 sets with reps "3", its notes the details |
| WorkoutParser.NoSupersetInDropsetDetails | src/lib/parsers/workoutParser.test.ts:62-69 | "суперсет" occurs in no letter case anywhere in "Дропсет 3 підходи по 8-12" |
| WorkoutParser.KindOfDropsetDetails | src/lib/parsers/workoutParser.test.ts:62-69 | "Дропсет 3 підходи по 8-12" is a dropset |
| WorkoutParser.SetsOfDropsetDetails | src/lib/parsers/workoutParser.test.ts:62-69 | "Дропсет 3 підходи по 8-12" has 3 sets |
| WorkoutParser.RepsOfDropsetDetails | src/lib/parsers/workoutParser.test.ts:62-69 | "Дропсет 3 підходи по 8-12" has reps "3" |
| WorkoutParser.DropsetDetails | src/lib/parsers/workoutParser.test.ts:62-69 | the details of the dropset test give a dropset of 3 sets with reps "3", its notes the details |
| WorkoutParser.FirstRepsBefore | src/lib/parsers/workoutParser.ts:76 | the reps match used is the first one: no position with a match comes before it |
| WorkoutParser.RepsText | src/lib/parsers/workoutParser.ts:76-77 | the reps are never empty and hold only digits and hyphens, whether matched or the default "8-12" |
| WorkoutParser.RepsIsFirstRun | src/lib/parsers/workoutParser.ts:76-77 | reps are the first maximal run of digits and hyphens anywhere in the details, or "8-12" when there is none |
| WorkoutParser.RepsAfterWords | src/lib/parsers/workoutParser.ts:76-77 | details whose first digit or hyphen opens a run have that run as their reps, whatever words come before it |
| WorkoutParser.RepsOfUsualDetails | src/lib/parsers/workoutParser.ts:76-77 | "3 підходи по 8-12" has reps "3": the optional `по` does not make the pattern skip the sets count |
| WorkoutParser.ParseExercise | src/lib/parsers/workoutParser.ts:69-87 | the exercise has the given id and name, and its notes are the details verbatim |
| WorkoutParser.ParseExerciseDefaults | src/lib/parsers/workoutParser.ts:73-84 | details without digits, hyphens or kind keywords give 3 sets of "8-12" of the normal kind |
| WorkoutParser.ParseExercises | src/lib/parsers/workoutParser.ts:37-67 | the loop's exercises are those the classification of the day's lines gives |
| WorkoutParser.DayDraftsAreGroups | src/lib/parsers/workoutParser.ts:43-64 | the accumulator loop gives one draft per header line, with the block of lines after it as details, the last one included |
| WorkoutParser.DayExercisesFollowHeaders | src/lib/parsers/workoutParser.ts:46-64 | one exercise per header line in source order, even one without details; its name is the header's trimmed name, its notes the following non-empty lines joined by single spaces, its id the next one from the supply |
| WorkoutParser.AppendAllJoins | src/lib/parsers/workoutParser.ts:58 | appending non-empty lines one by one from empty details is joining them with spaces |
| WorkoutParser.DaysOf | src/lib/parsers/workoutParser.ts:24-31 | a day is kept only when its span has exercises, so every day has at least one |
| WorkoutParser.PlanParse | src/lib/parsers/workoutParser.ts:3-35 | every day `parseWorkoutPlan` returns has at least one exercise |
| WorkoutParser.ParseWorkoutPlan | src/lib/parsers/workoutParser.ts:3-35 | the method's days are the days of the cleaned text's markers and spans |
| WorkoutParser.ParseDays | src/lib/parsers/workoutParser.ts:18-32 | the `forEach` over the markers pushes a day for each span with exercises, in marker order, with ids taken in order |
| WorkoutParser.PlanParseNoMarker | src/lib/parsers/workoutParser.ts:11-16 | a text with no day marker gives no days |
| WorkoutParser.PlanParseEmpty | src/lib/parsers/workoutParser.ts:14-16 | the empty text gives no days |
| WorkoutParser.PlanParseIgnoresCrLf | src/lib/parsers/workoutParser.ts:6-9 | a plan written with CR LF line ends parses exactly as with LF line ends |
| WorkoutParser.KeptComplete | src/lib/parsers/workoutParser.ts:26 | every span with at least one exercise is among the kept spans |
| WorkoutParser.PlanParseFollowsMarkers | src/lib/parsers/workoutParser.ts:18-31 | the k-th day comes from the k-th marker whose span has exercises: its day is the marker's number and its exercises are parsed from that span; every span left out has no exercise |
| WorkoutParser.FormatLines | src/lib/parsers/workoutParser.ts:89-99 | `FormatExerciseForDisplay`: the display text is two lines: the kind prefix ("Суперсет - ", "Дропсет - " or none) with the name, then the sets line |
| WorkoutParser.FormatSetsRoundTrip | src/lib/parsers/workoutParser.ts:89-91 | the sets count read back from the displayed sets line is the exercise's sets |
| WorkoutParser.FormatRepsReadBack | src/lib/parsers/workoutParser.ts:89-91 | the reps read back from the displayed sets line are the sets count's digits, not the reps |
| HistoryLines.HeaderGroup | src/lib/parsers/historyParser.ts:124 | `^(\d+)\.\s+(.+?)(?:\s*[–-]\s*.*)?$`: a captured name is non-empty and line-terminator-free, and only a line starting with a digit has one |
| HistoryLines.LazyEnd | src/lib/parsers/historyParser.ts:124 | the lazy group ends at the first position from which the optional dash tail runs to the end of the line |
| HistoryLines.HeaderBeforeDash | src/lib/parsers/historyParser.ts:124-143 | `N. name – extra` captures the name before the first dash, for either dash |
| HistoryLines.HeaderWithoutDash | src/lib/parsers/historyParser.ts:124 | `N. name` without a dash captures the whole name |
| HistoryLines.HeaderNameCheck | src/lib/parsers/historyParser.ts:128-129 | on a header-shaped line only "кг" and " × " can make `isExerciseName` fail |
| HistoryLines.SetOfMeaning | src/lib/parsers/historyParser.ts:150-160 | `SetOf`: a line is a set exactly when it is a bare number or `W кг ×/x R`; a bare number is that many reps with weight 0, a full line gives its weight and reps |
| HistoryLines.SetOfWritten | src/lib/parsers/historyParser.ts:150-160 | `W кг × R` with a point or comma in the weight reads as weight W and R reps |
| HistoryLines.SetOfBareSample | src/lib/parsers/historyParser.ts:155 | "20" is 20 reps without weight |
| HistoryLines.NumberOfWeightText | src/lib/parsers/historyParser.ts:150-159 | a weight written with a decimal point or comma reads as its integer and fraction digits |
| HistoryLines.WeightedIsNoHeader | src/lib/parsers/historyParser.ts:124-156 | a weighted set line is never header-shaped |
| HistoryLines.SetIsNoHeader | src/lib/parsers/historyParser.ts:124-147 | a set line is never header-shaped, so the set branch sees every set line |
| HistoryLines.TagOfHeader | src/lib/parsers/historyParser.ts:126-146 | `HistoryTag`: a header-shaped line naming an exercise opens an exercise, and one that fails `isExerciseName` is skipped |
| HistoryLines.HeaderLineOpens | src/lib/parsers/historyParser.ts:124-145 | `N. name – extra` opens an exercise named `name` |
| HistoryLines.HeaderWithWeightIgnored | src/lib/parsers/historyParser.ts:128-131 | a header-shaped line containing "кг" neither opens an exercise nor adds a set |
| HistoryLines.HistoryTags | src/lib/parsers/historyParser.ts:119-120 | one classification per line of the day |
| HistoryParser.ParseHistoryExercises | src/lib/parsers/historyParser.ts:110-181 | the loop's exercises are those the classification of the day's lines gives |
| HistoryParser.PushAllNumbers | src/lib/parsers/historyParser.ts:162-166 | pushing set lines keeps the sets there and numbers the k-th new one `length + k + 1` with its weight and reps |
| HistoryParser.GroupDraftSets | src/lib/parsers/historyParser.ts:162-166 | an exercise's sets are its set lines in order, numbered from 1 |
| HistoryParser.HistoryDraftsAreGroups | src/lib/parsers/historyParser.ts:119-178 | `HistoryDrafts`: the loop gives one exercise per header block with at least one set, dropping the others at the next header and at the end |
| HistoryParser.HistoryExercisesLogged | src/lib/parsers/historyParser.ts:133-178 | every exercise of a day has at least one set, its sets numbered 1..n without gaps, and the supply's ids in order |
| HistoryParser.WorkoutDateSetsDay | src/lib/parsers/historyParser.ts:96-97 | `WorkoutDate`: `setDate(getDate() + dayNumber - 1)` on the start date is the local date `dayNumber - 1` days later, rolling over months |
| HistoryParser.ParseWeekBlock | src/lib/parsers/historyParser.ts:75-108 | the method's workouts are the dated workouts of the week's day spans |
| HistoryParser.ParseWeekDays | src/lib/parsers/historyParser.ts:86-105 | the `forEach` over the day markers pushes a dated workout for each span with exercises, in marker order |
| HistoryParser.WeekTexts | src/lib/parsers/historyParser.ts:63-66 | one text per week header, the j-th being span j |
| HistoryParser.ParseHistoryWorkouts | src/lib/parsers/historyParser.ts:35-73 | the method's result is the error or the workouts of the cleaned text's week spans |
| HistoryParser.ParseWeeks | src/lib/parsers/historyParser.ts:52-70 | the `forEach` over the week headers appends each week's workouts in header order, without sorting |
| HistoryParser.HistoryParseFailsIff | src/lib/parsers/historyParser.ts:45-50 | `HistoryParse`: the parse fails exactly when the cleaned text has no week header, and then with the "Не знайдено тижнів" message |
| HistoryParser.WeekWorkoutsDated | src/lib/parsers/historyParser.ts:86-105 | every workout of a week is dated start plus `dayNumber - 1`, has exercises, and every exercise has sets numbered from 1 |
| HistoryParser.WeeksOfDated | src/lib/parsers/historyParser.ts:52-70 | `WeeksOf`: every workout of the weeks is dated from one of the weeks' start dates, and the ids run in order |
| HistoryParser.HistoryParseDated | src/lib/parsers/historyParser.ts:35-108 | every parsed workout is dated from the start date of one of the week headers, has exercises with sets numbered from 1, and the supply's ids are used in order |
| HistoryParser.HistoryIdsDistinct | src/lib/parsers/historyParser.ts:133-178 | with a supply that never repeats an id, all exercise ids of a parse are distinct |
| HistoryFormat.FormatHistoryWorkout | src/lib/parsers/historyParser.ts:186-203 | the method's text is the date line, the day line, a blank line, then per exercise `N. name`, its set lines and a blank line, each line ended by a line feed |
| HistoryFormat.WriteSets | src/lib/parsers/historyParser.ts:192-198 | the inner loop appends one terminated line per set |
| HistoryFormat.SplitTerminated | src/lib/parsers/historyParser.ts:112 | splitting line-feed-terminated lines gives them back, then one empty piece |
| HistoryFormat.SetLineTag | src/lib/parsers/historyParser.ts:192-198 | with `HistoryTag`, a written set line is read back as a set line with its weight and reps |
| HistoryFormat.HeaderLineTag | src/lib/parsers/historyParser.ts:191 | a written `N. name` line opens an exercise with that name |
| HistoryFormat.HeadSkipped | src/lib/parsers/historyParser.ts:187-188 | the date line, the day line and the blank line change nothing in the parser |
| HistoryFormat.FormatThenParse | src/lib/parsers/historyParser.ts:110-203 | parsing a formatted workout gives back its exercises' names and sets, when names and weights write back readably |
| HistoryFormat.FormatThenParseExercises | src/lib/parsers/historyParser.ts:110-203 | the parsed exercises are the workout's, with ids from the supply |
| HistoryExample.WeekHeaderAtStart | src/lib/parsers/historyParser.ts:209 | the example's first line is a week header dated 25.08.2024 |
| HistoryExample.CleanTextKeepsHead | src/lib/parsers/historyParser.ts:39-42 | cleaning keeps a line-break-free, trimmed head of a text |
| HistoryExample.ImportExampleParses | src/lib/parsers/historyParser.ts:208-287 | the import example parses without error |
| ExerciseEditing.EditSets | src/pages/Workout/ui/Exercise/index.tsx:37-74 | all three handlers keep the list's length, order, ids and names; only the exercises with the card's id get new sets, and every other exercise is unchanged (also src/pages/Workout/Exercise/index.tsx:37-85) |
| ExerciseEditing.SetAddedKeepsNumbering | src/pages/Workout/ui/Exercise/index.tsx:43 | `SetAdded`: `addSet` keeps every set and appends exactly `{length + 1, 0, 0}`, so sets numbered 1..n become 1..n+1 (also src/pages/Workout/Exercise/index.tsx:45) |
| ExerciseEditing.AddSet | src/pages/Workout/ui/Exercise/index.tsx:37-48 | the card's exercise keeps its id, name and sets and gets exactly one set more; every other exercise and the list's length are unchanged |
| ExerciseEditing.RemoveSet | src/pages/Workout/ui/Exercise/index.tsx:50-61 | the card's exercise keeps its id and name and never gains a set; every other exercise and the list's length are unchanged |
| ExerciseEditing.UpdateSet | src/pages/Workout/ui/Exercise/index.tsx:63-74 | the card's exercise keeps its id, name, number of sets and every set number; every other exercise and the list's length are unchanged |
| ExerciseEditing.Edited | src/pages/Workout/ui/Exercise/index.tsx:69 | `{ ...set, [field]: value }` keeps the set number, and the field not named keeps its value |
| ExerciseEditing.SetsWithout | src/pages/Workout/ui/Exercise/index.tsx:56 | `filter` never lengthens the list |
| ExerciseEditing.SetsWithoutMembers | src/pages/Workout/ui/Exercise/index.tsx:56 | a set is kept exactly when it was there and has another number (also src/pages/Workout/Exercise/index.tsx:59-61) |
| ExerciseEditing.SetsWithoutAppend | src/pages/Workout/ui/Exercise/index.tsx:56 | the filter works piece by piece, keeping the order of what remains |
| ExerciseEditing.SetsWithoutAbsent | src/pages/Workout/ui/Exercise/index.tsx:56 | removing a number no set has changes nothing |
| ExerciseEditing.SetsWithoutAll | src/pages/Workout/ui/Exercise/index.tsx:56 | removing the number every set has leaves nothing |
| ExerciseEditing.SetsWithoutNumbered | src/pages/Workout/ui/Exercise/index.tsx:56 | on sets numbered 1..n, removing set k drops exactly that set and does not renumber the rest |
| ExerciseEditing.RemoveUndoesAdd | src/pages/Workout/ui/Exercise/index.tsx:43-56 | removing the set just added restores the numbered list |
| ExerciseEditing.SetsUpdated | src/pages/Workout/ui/Exercise/index.tsx:69 | `updateSet` keeps the length and every set number; sets with other numbers are unchanged and the matching ones get the edit (also src/pages/Workout/Exercise/index.tsx:77-79) |
| ExerciseEditing.UpdateWritesOneField | src/pages/Workout/ui/Exercise/index.tsx:69 | an edit of the weight leaves the reps, and an edit of the reps leaves the weight, of every set |
| ExerciseEditing.UpdateLastWins | src/pages/Workout/ui/Exercise/index.tsx:69 | two edits of the same field of the same set leave the second value |
| ExerciseEditing.UpdateKeepsNumbering | src/pages/Workout/ui/Exercise/index.tsx:69 | updates keep sets numbered 1..n |
| ExerciseEditing.RemoveCanEmptySets | src/pages/Workout/ui/Exercise/index.tsx:37-127 | with `Offered` (the controls the card shows) and `Applied` (its handlers): as written, from sets 1 and 2, removing set 1, adding a set and pressing a shown remove control empties the list |
| ExerciseEditing.Renumbered | src/pages/Workout/ui/Exercise/index.tsx:56 | the corrected removal's renumbering keeps length, weights and reps and numbers the sets 1..n |
| ExerciseEditing.AppliedFixedKeepsSets | src/pages/Workout/ui/Exercise/index.tsx:37-127 | with the renumbering removal, one shown control keeps a numbered non-empty list numbered and non-empty |
| ExerciseEditing.RunFixedKeepsSets | src/pages/Workout/ui/Exercise/index.tsx:37-127 | with the renumbering removal, any clicks on shown controls keep the sets numbered 1..n and never empty the list |
| WorkoutPage.ParseLeadingDigits | src/pages/Workout/ui/WorkoutPage/index.tsx:47 | `ParseInt`: `parseInt` of digits followed by a non-digit reads the digits in base 10 |
| WorkoutPage.ParseNegative | src/pages/Workout/ui/WorkoutPage/index.tsx:47 | `parseInt` of `-` and digits is the negated number |
| WorkoutPage.ParsePositive | src/pages/Workout/ui/WorkoutPage/index.tsx:47 | `parseInt` of `+` and digits is the number |
| WorkoutPage.ParseSkipsSpaces | src/pages/Workout/ui/WorkoutPage/index.tsx:47 | `parseInt` skips leading white space |
| WorkoutPage.ParseHex | src/pages/Workout/ui/WorkoutPage/index.tsx:47 | `parseInt` of `0x` or `0X` and hex digits reads them in base 16 |
| WorkoutPage.ParseNoNumber | src/pages/Workout/ui/WorkoutPage/index.tsx:47 | a text starting with anything but a space, a sign or a digit is no number (`NaN`) |
| WorkoutPage.ParseBareHexPrefix | src/pages/Workout/ui/WorkoutPage/index.tsx:47 | "0x" alone is no number |
| WorkoutPage.RepsFromPlanLeading | src/pages/Workout/ui/WorkoutPage/index.tsx:47 | a reps range `a-b` gives `a`, and plain digits give their number |
| WorkoutPage.RepsFromPlanNonNegative | src/pages/Workout/ui/WorkoutPage/index.tsx:47 | `RepsFromPlan`: the initial reps are never negative: `parseInt(...) \|\| 0` keeps only non-zero numbers, and a reps text's first piece has no `-` sign |
| WorkoutPage.RepsFromPlanNoNumber | src/pages/Workout/ui/WorkoutPage/index.tsx:47 | reps text without a leading number gives 0 |
| WorkoutPage.RepsOfUsualRange | src/pages/Workout/ui/WorkoutPage/index.tsx:47 | "8-12" gives 8 reps |
| WorkoutPage.InitialSets | src/pages/Workout/ui/WorkoutPage/index.tsx:44-48 | exactly `ex.sets` sets numbered 1..n, each with weight 0 and the plan's leading reps |
| WorkoutPage.InitialExercises | src/pages/Workout/ui/WorkoutPage/index.tsx:41-49 | one exercise per plan exercise in plan order, with its id and name and its initial sets |
| WorkoutPage.MergedSets | src/pages/Workout/ui/WorkoutPage/index.tsx:60-64 | through `SuggestedWeight` and `SuggestedReps`, set i keeps its number and takes the i-th suggested weight (0 when missing or zero) and the i-th suggested reps (the old reps when missing or zero) |
| WorkoutPage.MergeSuggestions | src/pages/Workout/ui/WorkoutPage/index.tsx:55-68 | ids, names and order are kept; an exercise without a suggestion is unchanged and one with a suggestion gets the merged sets |
| WorkoutPage.MergeWithoutSuggestions | src/pages/Workout/ui/WorkoutPage/index.tsx:55-68 | with no suggestions the merge changes nothing |
| WorkoutPage.MergeKeepsNumbering | src/pages/Workout/ui/WorkoutPage/index.tsx:60-64 | the merge keeps every exercise's set count and numbering |
| WorkoutPage.MergeTwiceIsOnce | src/pages/Workout/ui/WorkoutPage/index.tsx:55-68 | merging the same suggestions twice is merging once |
| WorkoutPage.LoadedFromPlan | src/pages/Workout/ui/WorkoutPage/index.tsx:39-69 | `LoadedExercises` without a saved workout: one exercise per plan exercise in order, with its id and name and `ex.sets` sets numbered from 1, whose weight and reps are the suggestion's where there is one and 0 and the plan's reps otherwise |
| WorkoutPage.LoadedFromSaved | src/pages/Workout/ui/WorkoutPage/index.tsx:36-54 | `LoadedExercises`: with a saved workout its exercises are used verbatim and no suggestion is merged |
| WorkoutPage.Toggled | src/pages/Workout/ui/WorkoutPage/index.tsx:80-90 | only the id's membership flips; every other id is in the result exactly when it was before |
| WorkoutPage.ToggleTwice | src/pages/Workout/ui/WorkoutPage/index.tsx:80-90 | toggling an id twice restores the editing set |
| WorkoutPage.TogglesCommute | src/pages/Workout/ui/WorkoutPage/index.tsx:80-90 | toggles of two ids commute |
| WorkoutPage.WorkoutPageState.constructor | src/pages/Workout/ui/WorkoutPage/index.tsx:17-21 | the page starts with no exercises, nothing in edit mode, and no save in progress, succeeded or failed |
| WorkoutPage.WorkoutPageState.LoadWorkoutData | src/pages/Workout/ui/WorkoutPage/index.tsx:30-72 | loading sets the exercises to the loaded ones and clears edit mode, and the save flags stay |
| WorkoutPage.WorkoutPageState.ToggleExerciseEdit | src/pages/Workout/ui/WorkoutPage/index.tsx:80-90 | the editing set becomes the toggled one, and nothing else changes |
| WorkoutPage.WorkoutPageState.AddSet | src/pages/Workout/ui/Exercise/index.tsx:37-48 | the page's exercises become the card's `addSet` result, and nothing else changes |
| WorkoutPage.WorkoutPageState.RemoveSet | src/pages/Workout/ui/Exercise/index.tsx:50-61 | the page's exercises become the card's `removeSet` result, and nothing else changes |
| WorkoutPage.WorkoutPageState.UpdateSet | src/pages/Workout/ui/Exercise/index.tsx:63-74 | the page's exercises become the card's `updateSet` result, and nothing else changes |
| WorkoutPage.WorkoutPageState.HandleSave | src/pages/Workout/ui/WorkoutPage/index.tsx:92-143 | a request is made exactly when there is workout data and a signed-in user; it sets saving and clears the success and error flags; a saved workout is sent back as an update with the current exercises, else a new workout with the plan day's number and the current exercises |
| WorkoutPage.WorkoutPageState.SaveSucceeded | src/pages/Workout/ui/WorkoutPage/index.tsx:101-103 | a successful save sets the success flag and empties the editing set |
| WorkoutPage.WorkoutPageState.SuccessTimerFired | src/pages/Workout/ui/WorkoutPage/index.tsx:104 | the timer clears the success flag, and nothing else changes |
| WorkoutPage.WorkoutPageState.SaveFailed | src/pages/Workout/ui/WorkoutPage/index.tsx:107-109 | a failed save sets the error message "Помилка при збереженні тренування" |
| WorkoutPage.WorkoutPageState.SaveSettled | src/pages/Workout/ui/WorkoutPage/index.tsx:111-113 | a settled save clears the saving flag |

## Left out

- Persistence, network and UI. The Firestore mutations, the React Query hooks, rendering,
  navigation and authentication are left out.
  - `HandleSave` returns the request it would send.
  - The mutation's callbacks are the separate methods `SaveSucceeded`, `SaveFailed` and
    `SaveSettled`.
  - The two-second `setTimeout` is the method `SuccessTimerFired`, which the environment calls.
  - The user is a boolean `signedIn`.
- WorkoutPage.WorkoutPageState.HandleSave: does not model the request's `date: new Date()`,
  `userId` and `weekPlanId` fields, because they come from the clock, the session and the
  stored plan.
- Generated ids (`Date.now()` and `Math.random()`) are an injected supply `ids: nat -> string`.
  - Nothing claims that ids are unique.
  - Only HistoryParser.HistoryIdsDistinct assumes a supply that never repeats.
- Floating point. Weights are exact `real`s.
  - HistoryLines.SetOfMeaning: `parseFloat` of the weight is the exact decimal value of its
    digits, without binary rounding.
  - HistoryFormat.FormatHistoryWorkout: how JavaScript writes a number (`${set.weight}`) is a
    parameter `weightText`.
  - The round trip assumes that it writes a positive weight as digits with an optional
    decimal point.
- Locale dates. `toLocaleDateString('uk-UA')` in the history formatter is a parameter
  `dateText`.
- Time zones and clocks. Dates are local day numbers. `new Date(y, m, d)` is modelled with
  its rollover of out-of-range days and months. Times of day and daylight saving are not
  modelled.
- The week's end date. `parseWeekBlock` ignores it. The header still has to contain it for
  the week to match, and the model checks that, but its value is not kept.
- Characters. JavaScript strings are UTF-16 code units, modelled as Dafny `char`s.
  - The `i` flag's case folding is written out for Latin and Cyrillic letters only.
  - `\s` is the ECMAScript white-space set, as `Text.IsSpace` lists it.
- Number sizes. `parseInt` gives unbounded integers here, so precision loss above 2^53 is
  not modelled. `NaN` is `None`.
- HistoryParser.WorkoutDate: a JavaScript `Date` more than 10^8 days from 1 January 1970 is
  an Invalid Date (`new Date` at src/lib/parsers/historyParser.ts:60, `setDate` at lines 96-97). A day
  marker such as `День 200000000` gives one; `WorkoutDate` returns a plain day number
  instead, for any day number.
- WorkoutParser.RepsIsFirstRun: the reps are what the code computes, the first run of
  digits and hyphens ("3" for "3 підходи по 8-12"), not the range "8-12" written after
  `по` in the details.
- Text.CleanTextNotIdempotent: the cleaning steps run in the code's order, and `trim()` plays
  no part in this. One pass of `/\r\n/g` over "a\r\r\nb" replaces the only CR LF and leaves
  a new one, "a\r\nb", which only a second cleaning replaces.
- ExerciseEditing.Offered: the set controls are modelled in edit mode. In view mode
  (`isViewMode`) the card shows no set controls.
- The set input's `parseFloat` and `parseInt`, in the set-row component, are left out. An
  update takes the already-parsed value (`SetEdit`).
- The suggestion's reasoning text and its display are left out, and so is the OpenAI call
  that produces the suggestions. The suggestions are an input map from exercise name to
  weights and reps.

## Findings

| source | as written | input that shows it | evidently intended | confidence | as-written member | corrected member |
|---|---|---|---|---|---|---|
| src/pages/Workout/ui/Exercise/index.tsx:43 | `removeSet` (line 56) filters without renumbering and `addSet` (line 43) numbers the new set `length + 1`. The older copy, src/pages/Workout/Exercise/index.tsx, does the same at lines 45 and 59. After a removal that is not the last set, two sets share a number, and one click on a shown remove control (line 122) deletes both. Both share a React key as well. | sets 1 and 2; remove set 1, add a set (numbered 2 again), press remove on set 2: the list is empty, although the control is shown only while more than one set exists | removal renumbers the remaining sets 1..n, so numbers stay unique and the shown control never empties the list | not executed | ExerciseEditing.RemoveCanEmptySets | ExerciseEditing.RunFixedKeepsSets |
