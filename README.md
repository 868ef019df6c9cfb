# Training-data transforms and looping carousel, in Dafny

This project models the two pieces of logic in the repository that are more
than presentation.

**Training data** (`GymTrainApp/src/utils/dataManager.js`). The workout app
keeps a tree of training days. Each day owns exercises, and each exercise owns
history entries. Seven synchronous transforms each take the whole tree and
return a new one:

- add a day;
- delete a day;
- add an exercise to a day;
- delete an exercise;
- add a history entry;
- update a history entry;
- delete a history entry.

They are modelled as pure functions over `seq` datatypes (module
`TrainingData`, file `training_data.dfy`). Each transform follows one path
from the root. An add appends at the end. A delete keeps, in order, the
records whose id differs. A missing id changes nothing. In an entry, sets go
through `parseInt`. Reps and weight become the bodyweight marker `'BW'` when
the text is "bw" in any letter case, and go through `parseFloat` otherwise.
Three things are parameters of the transforms:

- the fresh ids (random UUIDs in the app), one for each record created. A
  transform that can create several records takes a supply indexed by the
  position of the day, or of the day and exercise;
- today's date, likewise one per entry created;
- the two parsers, as a `Parsers` value holding two arbitrary functions. Every
  property therefore holds whatever the parsers return, NaN included.

Module `TrainingDataLaws` (file `training_data_laws.dfy`) proves the
properties that span several calls:

- Every transform keeps ids unique within their scope, given fresh ids.
- Each delete undoes the matching add, when the ids on the path are unique.
- A missing day, exercise or entry makes a transform a no-op.
- Update is idempotent, and deleting after updating is the same as deleting.
- Delete keeps the order of the records it keeps.
- The add-then-delete scenario leaves an empty tree.

Module `Seqs` (file `seqs.dfy`) holds the order-keeping filter that the
deletes use, with its lemmas.

**Carousel** (`Andre/Reetro/src/App.js`). The landing page's slideshow pads
the N slides to N + 2 by copying the last slide to the front and the first
slide to the back. Its state is an index into that padded sequence and a flag
saying whether moves are animated. Module `Carousel` (file `carousel.dfy`)
models it in two parts:

- Pure functions: the padded sequence, the dot predicate and the translate
  offset.
- The class `Slideshow`, whose fields are the two state variables. Its
  methods are the click handlers, the transition-end handler and the
  re-enable effect. Each method is proved against the pure `Step` function.

The lemmas show the following:

- Every padded position shows the slide its dot names.
- The snap at a transition end shows the same slide and lights the same dot.
- Moves that are each allowed to finish their transition always come to rest
  on a real slide.
- Nothing in the code stops two quick clicks from leaving the padded range.

## Model

| member | source | states |
|---|---|---|
| `Seqs.Filter` | GymTrainApp/src/utils/dataManager.js:38 | The result holds exactly the elements that satisfy the predicate, it is no longer than the input, and it equals the input when every element is kept |
| `Seqs.FilterConcat` | GymTrainApp/src/utils/dataManager.js:38 | Filtering distributes over concatenation, so the kept elements stay in their input order |
| `Seqs.FilterKeepsUniqueKeys` | GymTrainApp/src/utils/dataManager.js:38 | Filtering a list with distinct ids yields a list with distinct ids |
| `Seqs.AppendKeepsUniqueKeys` | GymTrainApp/src/utils/dataManager.js:34 | Appending a record whose id is new keeps ids distinct |
| `Seqs.AppendThenFilterOut` | GymTrainApp/src/utils/dataManager.js:34-38 | Filtering out the id of a record that was just appended, when no other record has that id, gives back the list before the append |
| `TrainingData.LowerChar` | GymTrainApp/src/utils/dataManager.js:78 | An upper-case ASCII letter becomes its lower-case letter, and every other character is unchanged. The result is 'b' exactly for 'b' and 'B', and 'w' exactly for 'w' and 'W' |
| `TrainingData.ToLower` | GymTrainApp/src/utils/dataManager.js:78 | Definition of the per-character `map` that `toLowerCase` stands for here: same length, and each character passed through `LowerChar`. `LowerIsBw` builds the bodyweight rule on it |
| `TrainingData.LowerIsBw` | GymTrainApp/src/utils/dataManager.js:78 | A text lower-cases to "bw" exactly when it is one of "bw", "bW", "Bw", "BW" |
| `TrainingData.ParseMeasure` | GymTrainApp/src/utils/dataManager.js:78-79 | The result is the bodyweight marker exactly when the text is "bw" in some letter case; otherwise it is the parseFloat of the text |
| `TrainingData.NewEntry` | GymTrainApp/src/utils/dataManager.js:74-80 | A new entry has the fresh id and today's date. Its sets are the parseInt of the typed sets. Its reps and weight are each the bodyweight marker exactly for "bw" in any case, and otherwise the parseFloat of the text |
| `TrainingData.UpdatedEntry` | GymTrainApp/src/utils/dataManager.js:102-108 | An updated entry keeps its id and takes the new date. Its sets, reps and weight follow the same parsing rule as a new entry's |
| `TrainingData.EditDay` | GymTrainApp/src/utils/dataManager.js:42-52 | Definition of the outer `days.map(...)`: the day at position i whose id matches gets `edit(i, exercises)`. The position stands for the moment the callback runs. Every other day is returned as it was, and the day count is kept |
| `TrainingData.EditExercise` | GymTrainApp/src/utils/dataManager.js:72-84 | Definition of the inner `exercises.map(...)`: the exercise at position j whose id matches gets `edit(j, history)`. Every other exercise is returned as it was, and the exercise count is kept |
| `TrainingData.AddTrainingDay` | GymTrainApp/src/utils/dataManager.js:28-35 | The result is the input days in order, followed by exactly one new day with the given name, the fresh id and no exercises |
| `TrainingData.DeleteTrainingDay` | GymTrainApp/src/utils/dataManager.js:37-39 | The result holds exactly the input days whose id differs from the given id. If no day has that id, the result is the input |
| `TrainingData.AddExerciseToTrainingDay` | GymTrainApp/src/utils/dataManager.js:41-53 | The matching day at position i gets one new exercise appended at the end. Its id is `newIds(i)`, the uuid drawn for that day, and it has the name and an empty history. Each day keeps its id and name, and every other day is unchanged. If no day matches, the tree is unchanged |
| `TrainingData.DeleteExercise` | GymTrainApp/src/utils/dataManager.js:55-65 | In the matching days, the new exercise list is the order-preserving filter of the old one that drops every exercise with the id. So the exercises kept are exactly those whose id differs, in their old order and multiplicity. Every other day is unchanged, and each day keeps its id and name. If the exercise is absent from the matching days, the tree is unchanged |
| `TrainingData.AddHistoryEntry` | GymTrainApp/src/utils/dataManager.js:67-89 | Exercise j of day i, when targeted, gets exactly one new entry appended at the end. The entry carries its own drawn id `newIds(i, j)` and date `dates(i, j)`. Every other history, every exercise id and name, and every day and exercise count are unchanged |
| `TrainingData.ReplaceEntries` | GymTrainApp/src/utils/dataManager.js:100-111 | Definition of the `history.map(...)` that updates entries: the length and positions are kept, an entry with the given id becomes its updated version, and the others are untouched |
| `TrainingData.UpdateHistoryEntry` | GymTrainApp/src/utils/dataManager.js:91-120 | In the targeted history, a matching entry keeps its id and position and takes the new fields. The history length is preserved, non-matching entries are untouched, and nothing outside the targeted history changes |
| `TrainingData.DeleteHistoryEntry` | GymTrainApp/src/utils/dataManager.js:122-140 | The targeted history becomes the order-keeping filter of the entries whose id differs. Nothing outside that history changes |
| `TrainingDataLaws.AddTrainingDayKeepsWellFormed` | GymTrainApp/src/utils/dataManager.js:28-35 | With a fresh id, adding a day keeps ids unique at every level |
| `TrainingDataLaws.DeleteTrainingDayKeepsWellFormed` | GymTrainApp/src/utils/dataManager.js:37-39 | Deleting a day keeps ids unique at every level |
| `TrainingDataLaws.AddExerciseKeepsWellFormed` | GymTrainApp/src/utils/dataManager.js:41-53 | When each drawn id is new in its day, adding an exercise keeps ids unique at every level |
| `TrainingDataLaws.DeleteExerciseKeepsWellFormed` | GymTrainApp/src/utils/dataManager.js:55-65 | Deleting an exercise keeps ids unique at every level |
| `TrainingDataLaws.AddHistoryEntryKeepsWellFormed` | GymTrainApp/src/utils/dataManager.js:67-89 | When each drawn id is new in its history, adding an entry keeps ids unique at every level |
| `TrainingDataLaws.UpdateHistoryEntryKeepsWellFormed` | GymTrainApp/src/utils/dataManager.js:91-120 | Updating an entry keeps ids unique at every level |
| `TrainingDataLaws.DeleteHistoryEntryKeepsWellFormed` | GymTrainApp/src/utils/dataManager.js:122-140 | Deleting an entry keeps ids unique at every level |
| `TrainingDataLaws.HistoryEditKeepsOuterKeys` | GymTrainApp/src/utils/dataManager.js:67-140 | A history-level edit that keeps ids unique in the histories it targets keeps the whole tree's ids unique |
| `TrainingDataLaws.DeleteUndoesAddTrainingDay` | GymTrainApp/src/utils/dataManager.js:28-39 | When the new id is fresh, deleting a day that was just added gives back the original tree |
| `TrainingDataLaws.DeleteUndoesAddExercise` | GymTrainApp/src/utils/dataManager.js:41-65 | Take unique day ids, day m with the id, and a drawn id new in that day. Deleting the exercise with that id gives back the original tree |
| `TrainingDataLaws.DeleteUndoesAddHistoryEntry` | GymTrainApp/src/utils/dataManager.js:67-140 | Take unique day ids, unique exercise ids in day m, exercise n as the target, and a drawn id new in its history. Deleting the entry with that id gives back the original tree |
| `TrainingDataLaws.RepeatedDayIdKeepsSecondExercise` | GymTrainApp/src/utils/dataManager.js:41-65 | When two empty days share an id, adding an exercise gives each day its own new exercise. Deleting the first one's id leaves the second day's exercise in place, so the undo law needs unique day ids |
| `TrainingDataLaws.AddExerciseToMissingDayIsNoOp` | GymTrainApp/src/utils/dataManager.js:41-53 | When no day has the id, adding an exercise returns the tree unchanged |
| `TrainingDataLaws.HistoriesUnchanged` | GymTrainApp/src/utils/dataManager.js:67-140 | A history-level result whose targeted histories are unchanged equals the input tree |
| `TrainingDataLaws.AddHistoryEntryToMissingExerciseIsNoOp` | GymTrainApp/src/utils/dataManager.js:67-89 | When no exercise with that id sits in a day with that id, adding an entry returns the tree unchanged |
| `TrainingDataLaws.UpdateMissingEntryIsNoOp` | GymTrainApp/src/utils/dataManager.js:91-120 | When the entry id is absent from the targeted histories, updating returns the tree unchanged |
| `TrainingDataLaws.DeleteMissingEntryIsNoOp` | GymTrainApp/src/utils/dataManager.js:122-140 | When the entry id is absent from the targeted histories, deleting returns the tree unchanged |
| `TrainingDataLaws.UpdateHistoryEntryIdempotent` | GymTrainApp/src/utils/dataManager.js:91-120 | Applying the same update twice gives the same tree as applying it once |
| `TrainingDataLaws.FilterAfterReplace` | GymTrainApp/src/utils/dataManager.js:100-131 | Filtering out an entry id after replacing the entries with that id is the same as filtering it out directly |
| `TrainingDataLaws.DeleteAfterUpdate` | GymTrainApp/src/utils/dataManager.js:91-140 | Deleting an entry after updating it gives the same tree as deleting it without the update |
| `TrainingDataLaws.DeleteTrainingDayKeepsOrder` | GymTrainApp/src/utils/dataManager.js:37-39 | Deleting a day from a concatenation is the concatenation of the deletes, so the remaining days keep their order |
| `TrainingDataLaws.PushDayScenario` | GymTrainApp/src/utils/dataManager.js:28-89 | Start from an empty tree. Add "Push Day", then "Bench Press", then an entry typed as 3, 8 and 60. The result is one day with one exercise and one entry; the ids and date are the first drawn, and the other fields are the parses of that text. Deleting the day then leaves the empty tree |
| `Carousel.LoopedSlides` | Andre/Reetro/src/App.js:58-62 | The padded sequence has length N+2. Element 0 is the last original slide, element N+1 is the first, and elements 1..N are the originals in order |
| `Carousel.RealSlide` | Andre/Reetro/src/App.js:58-62 | Each padded position stands for a real slide in [0, N). Position i stands for slide i-1 when 1 ≤ i ≤ N, position 0 for slide N-1, and position N+1 for slide 0 |
| `Carousel.LoopedSlideIsRealSlide` | Andre/Reetro/src/App.js:58-62 | Every padded position, phantom or real, shows the original slide it stands for |
| `Carousel.IsDotActive` | Andre/Reetro/src/App.js:210-213 | A lit dot implies the index lies in [0, N+1]. On a real slide 1..N, the only dot that can be lit is the one for that slide |
| `Carousel.ExactlyOneDotActive` | Andre/Reetro/src/App.js:210-213 | For an index in [0, N+1], dot k is lit exactly when k is the real slide that the index stands for, so exactly one dot is lit |
| `Carousel.NoDotActiveOutside` | Andre/Reetro/src/App.js:210-213 | For an index outside [0, N+1], no dot is lit |
| `Carousel.TranslatePercent` | Andre/Reetro/src/App.js:71-77 | The translate offset, computed as −index·(70+5) + (50 − 70/2) percent, is 15 − 75·index |
| `Carousel.TranslateStrictlyDecreasing` | Andre/Reetro/src/App.js:77 | The offset strictly decreases as the index grows |
| `Carousel.TranslateCentresSlide` | Andre/Reetro/src/App.js:75-77 | After translation, the current slide's left margin in the container equals its right margin |
| `Carousel.Step` | Andre/Reetro/src/App.js:81-113 | Next adds 1 and prev subtracts 1, with no bounds check. A dot click sets the index to k+1. A transition end at index N+1 goes to 1, and at index 0 goes to N, disabling animation in both cases; at any other index it changes nothing. From an index in [0, N+1] it always lands in [1, N]. Re-enabling turns animation on and keeps the index |
| `Carousel.SnapShowsSameSlide` | Andre/Reetro/src/App.js:81-92 | The snap at a transition end shows the same slide as before and lights the same dot |
| `Carousel.SettledMovesStayOnRealSlides` | Andre/Reetro/src/App.js:81-113 | Start on a real slide with animation on. After any run of arrow and dot moves, each followed by its transition end and the re-enable step, the carousel rests on a real slide with animation on |
| `Carousel.DoubleNextEscapesLoop` | Andre/Reetro/src/App.js:81-113 | Two next clicks from slide N before the transition ends reach index N+2. The transition end does not snap there, and no dot is lit |
| `Carousel.Slideshow.constructor` | Andre/Reetro/src/App.js:66-68 | The initial state is index 1 with transitions enabled |
| `Carousel.Slideshow.NextSlide` | Andre/Reetro/src/App.js:106-108 | The index grows by exactly 1, and the animation flag is unchanged |
| `Carousel.Slideshow.PrevSlide` | Andre/Reetro/src/App.js:111-113 | The index shrinks by exactly 1, and the animation flag is unchanged |
| `Carousel.Slideshow.ClickDot` | Andre/Reetro/src/App.js:209 | Clicking dot k sets the index to k+1 |
| `Carousel.Slideshow.HandleTransitionEnd` | Andre/Reetro/src/App.js:81-92 | At index N+1 the index becomes 1, and at index 0 it becomes N; both disable animation. At any other index nothing changes |
| `Carousel.Slideshow.ReenableTransition` | Andre/Reetro/src/App.js:95-103 | Animation is enabled afterwards, and the index is unchanged |

## Left out

- `loadTrainingDays`, `saveTrainingDays`, `loadUserProfile` and `saveUserProfile` are left out. They are asynchronous storage I/O with JSON serialisation and error logging.
- Fresh ids and dates are parameters. `uuidv4()` and `new Date().toISOString().slice(0, 10)` run once for each record the app creates. `addTrainingDay` takes one `newId`. `addExerciseToTrainingDay` takes a supply `newIds(i)` indexed by the day's position. `addHistoryEntry` takes `newIds(i, j)` and `dates(i, j)` indexed by day and exercise position. Uniqueness of ids is proved only under the assumption that each drawn id is new where it is placed. That UUIDs never collide is not modelled.
- `parseInt` and `parseFloat` are the two arbitrary functions in a `Parsers` value. Which value a given text parses to is not modelled. A result is NaN, an infinity (as from `"1e400"`) or a finite value, kept as a `real`. Rounding to a 64-bit float is not modelled.
- `TrainingData.LowerChar` lower-cases ASCII letters only. `toLowerCase` also maps non-ASCII letters, but no non-ASCII character lower-cases to "b" or "w". So the bodyweight test is unaffected. `toLowerCase` can also change a string's length: U+0130 'İ' becomes the two characters "i̇". `ToLower` always keeps the length. The bodyweight test is again unaffected, since that result contains 'i'.
- `Carousel.LoopedSlides` requires at least one slide. The page has four fixed slides. With none, JavaScript would pad with two `undefined` entries.
- A `TransitionEnded` event stands for any `transitionend` that reaches the strip's handler. That includes events bubbling up from the hover overlays' `transition-opacity duration-300` (App.js lines 171 and 178). `Carousel.Step` and `HandleTransitionEnd` accept such an event in any state, so a stray snap in the middle of a move stays within the model. `Carousel.SettledMovesStayOnRealSlides` assumes exactly one transition end per move. Which hover fires which event is not modelled.
- The 50 ms `setTimeout`/`clearTimeout` before animation is re-enabled is not modelled. The re-enable is an explicit step, `Reenabled` / `ReenableTransition`.
- The CSS string that embeds the offset is not modelled. For a negative index it would read `--75%`.
- The slides' content, the image fallback, and the hero, navigation and content sections are presentation and are not modelled.
- React's batching of the two state setters in the transition-end handler is not modelled. Both setters take effect together, as the method's single step does.
- `GymTrainApp/App.js` and `GymTrainApp/src/App.js` are not part of this model. The first is an older copy of the same transforms. The second holds wrappers that call the transforms and then save.
- The screens and the status panel are not part of this model. They hold input validation, the kg-to-lbs conversion and the progress bar, all of which rely on floating-point parsing.

A delete removes every record carrying the id, not only the first, and so does the model.

Animation comes back after a 50 ms timer. The model makes this the explicit `Reenabled` step.
