/** The workout tracker's training data: a tree of training days, each owning
    its exercises, each owning its history entries, and the seven transforms
    that take the whole tree and return a new one. Fresh ids (random UUIDs in
    the app) and today's date are parameters of the transforms that need them,
    one per record the app creates; the numeric parsers are parameters too, so
    every property below holds whatever parseInt and parseFloat return. */
module TrainingData {
  import opened Seqs

  type Id = string

  /** A JavaScript number as a parse can yield it: NaN, an infinity (such as
      parseFloat("Infinity") or parseFloat("1e400")), or a finite value. */
  datatype JsNumber = NaN | Infinite(positive: bool) | Finite(value: real)

  /** The two parsers the transforms apply to the text a user typed. */
  datatype Parsers = Parsers(parseInt: string -> JsNumber, parseFloat: string -> JsNumber)

  /** Reps and weight are a number or the bodyweight marker 'BW'. */
  datatype Measure = Bodyweight | Amount(n: JsNumber)

  datatype HistoryEntry = HistoryEntry(id: Id, date: string, sets: JsNumber, reps: Measure, weight: Measure)
  datatype Exercise = Exercise(id: Id, name: string, history: seq<HistoryEntry>)
  datatype TrainingDay = TrainingDay(id: Id, name: string, exercises: seq<Exercise>)

  /** The text fields of the "add entry" form. */
  datatype NewEntryData = NewEntryData(sets: string, reps: string, weight: string)
  /** The text fields of the "edit entry" form. */
  datatype UpdatedEntryData = UpdatedEntryData(date: string, sets: string, reps: string, weight: string)

  function DayKey(d: TrainingDay): (key: Id) { d.id }
  function ExerciseKey(e: Exercise): (key: Id) { e.id }
  function EntryKey(h: HistoryEntry): (key: Id) { h.id }

  /** The filter predicates of the three deletes: keep what does not carry `id`. */
  function OtherDay(id: Id): (keep: TrainingDay -> bool) { (d: TrainingDay) => d.id != id }
  function OtherExercise(id: Id): (keep: Exercise -> bool) { (e: Exercise) => e.id != id }
  function OtherEntry(id: Id): (keep: HistoryEntry -> bool) { (h: HistoryEntry) => h.id != id }

  // ---------------------------------------------------------------------------
  // The bodyweight rule

  /** String.prototype.toLowerCase on one character, for the ASCII letters. */
  function LowerChar(c: char): (r: char)
    ensures 'A' <= c <= 'Z' ==> 'a' <= r <= 'z' && r as int - c as int == 'a' as int - 'A' as int
    ensures !('A' <= c <= 'Z') ==> r == c
    ensures r == 'b' <==> c == 'b' || c == 'B'
    ensures r == 'w' <==> c == 'w' || c == 'W'
  {
    if 'A' <= c <= 'Z' then (c as int + 32) as char else c
  }

  function ToLower(s: string): (r: string)
    ensures |r| == |s|
    ensures forall i :: 0 <= i < |s| ==> r[i] == LowerChar(s[i])
  {
    seq(|s|, i requires 0 <= i < |s| => LowerChar(s[i]))
  }

  /** The four spellings of "bw" in any letter case. */
  const BodyweightSpellings: set<string> := {"bw", "bW", "Bw", "BW"}

  lemma LowerIsBw(s: string)
    ensures ToLower(s) == "bw" <==> s in BodyweightSpellings
  {
    if ToLower(s) == "bw" {
      assert |s| == 2 && LowerChar(s[0]) == 'b' && LowerChar(s[1]) == 'w';
      assert s == [s[0], s[1]];
    }
  }

  /** How reps and weight are stored: "bw" in any letter case becomes the
      bodyweight marker, anything else goes through parseFloat. */
  function ParseMeasure(text: string, p: Parsers): (m: Measure)
    ensures m == Bodyweight <==> text in BodyweightSpellings
    ensures text !in BodyweightSpellings ==> m == Amount(p.parseFloat(text))
  {
    LowerIsBw(text);
    if ToLower(text) == "bw" then Bodyweight else Amount(p.parseFloat(text))
  }

  /** The entry addHistoryEntry creates. */
  function NewEntry(newId: Id, today: string, data: NewEntryData, p: Parsers): (h: HistoryEntry)
    ensures h.id == newId && h.date == today
    ensures h.sets == p.parseInt(data.sets)
    ensures h.reps == Bodyweight <==> data.reps in BodyweightSpellings
    ensures h.weight == Bodyweight <==> data.weight in BodyweightSpellings
    ensures data.reps !in BodyweightSpellings ==> h.reps == Amount(p.parseFloat(data.reps))
    ensures data.weight !in BodyweightSpellings ==> h.weight == Amount(p.parseFloat(data.weight))
  {
    HistoryEntry(newId, today, p.parseInt(data.sets), ParseMeasure(data.reps, p), ParseMeasure(data.weight, p))
  }

  /** An entry after updateHistoryEntry has replaced its fields. */
  function UpdatedEntry(entry: HistoryEntry, data: UpdatedEntryData, p: Parsers): (h: HistoryEntry)
    ensures h.id == entry.id && h.date == data.date
    ensures h.sets == p.parseInt(data.sets)
    ensures h.reps == Bodyweight <==> data.reps in BodyweightSpellings
    ensures h.weight == Bodyweight <==> data.weight in BodyweightSpellings
    ensures data.reps !in BodyweightSpellings ==> h.reps == Amount(p.parseFloat(data.reps))
    ensures data.weight !in BodyweightSpellings ==> h.weight == Amount(p.parseFloat(data.weight))
  {
    entry.(date := data.date, sets := p.parseInt(data.sets),
           reps := ParseMeasure(data.reps, p), weight := ParseMeasure(data.weight, p))
  }

  // ---------------------------------------------------------------------------
  // Paths into the tree

  /** Array.prototype.map over the days: the day at position i whose id is
      `dayId` gets its exercise list rewritten by `edit(i, ...)`, the other days
      are returned as they are. The position stands for the moment the map
      callback runs, which is when the app draws a fresh id or date. */
  function EditDay(days: seq<TrainingDay>, dayId: Id, edit: (nat, seq<Exercise>) -> seq<Exercise>): (r: seq<TrainingDay>)
    ensures |r| == |days|
    ensures forall i :: 0 <= i < |days| && days[i].id != dayId ==> r[i] == days[i]
    ensures forall i :: 0 <= i < |days| && days[i].id == dayId ==>
              r[i] == days[i].(exercises := edit(i, days[i].exercises))
  {
    seq(|days|, i requires 0 <= i < |days| =>
      if days[i].id == dayId then days[i].(exercises := edit(i, days[i].exercises)) else days[i])
  }

  /** Array.prototype.map over one day's exercises: the exercise at position j
      whose id is `exerciseId` gets its history rewritten by `edit(j, ...)`. */
  function EditExercise(exercises: seq<Exercise>, exerciseId: Id,
                        edit: (nat, seq<HistoryEntry>) -> seq<HistoryEntry>): (r: seq<Exercise>)
    ensures |r| == |exercises|
    ensures forall j :: 0 <= j < |exercises| && exercises[j].id != exerciseId ==> r[j] == exercises[j]
    ensures forall j :: 0 <= j < |exercises| && exercises[j].id == exerciseId ==>
              r[j] == exercises[j].(history := edit(j, exercises[j].history))
  {
    seq(|exercises|, j requires 0 <= j < |exercises| =>
      if exercises[j].id == exerciseId then exercises[j].(history := edit(j, exercises[j].history)) else exercises[j])
  }

  /** Only the exercise lists of the days with id `dayId` may differ between
      `days` and `r`; those days keep their id and name. */
  ghost predicate OnlyExercisesOf(days: seq<TrainingDay>, r: seq<TrainingDay>, dayId: Id)
  {
    && |r| == |days|
    && (forall i :: 0 <= i < |days| && days[i].id != dayId ==> r[i] == days[i])
    && (forall i :: 0 <= i < |days| && days[i].id == dayId ==>
          r[i].id == days[i].id && r[i].name == days[i].name)
  }

  /** Position (i, j) is the exercise `exerciseId` inside the day `dayId`. */
  ghost predicate Targets(days: seq<TrainingDay>, dayId: Id, exerciseId: Id, i: int, j: int)
  {
    0 <= i < |days| && days[i].id == dayId &&
    0 <= j < |days[i].exercises| && days[i].exercises[j].id == exerciseId
  }

  /** Only the histories of the exercises with id `exerciseId` inside the days
      with id `dayId` may differ; every day keeps its exercise count, every
      exercise its id and name. */
  ghost predicate OnlyHistoryOf(days: seq<TrainingDay>, r: seq<TrainingDay>, dayId: Id, exerciseId: Id)
  {
    && OnlyExercisesOf(days, r, dayId)
    && (forall i :: 0 <= i < |days| && days[i].id == dayId ==> |r[i].exercises| == |days[i].exercises|)
    && (forall i, j :: 0 <= i < |days| && days[i].id == dayId && 0 <= j < |days[i].exercises| ==>
          if days[i].exercises[j].id == exerciseId
          then r[i].exercises[j].id == exerciseId && r[i].exercises[j].name == days[i].exercises[j].name
          else r[i].exercises[j] == days[i].exercises[j])
  }

  // ---------------------------------------------------------------------------
  // The seven transforms

  function AddTrainingDay(days: seq<TrainingDay>, dayName: string, newId: Id): (r: seq<TrainingDay>)
    ensures |r| == |days| + 1
    ensures r[..|days|] == days
    ensures r[|days|] == TrainingDay(newId, dayName, [])
  {
    days + [TrainingDay(newId, dayName, [])]
  }

  function DeleteTrainingDay(days: seq<TrainingDay>, dayId: Id): (r: seq<TrainingDay>)
    ensures forall i :: 0 <= i < |r| ==> r[i] in days && r[i].id != dayId
    ensures forall i :: 0 <= i < |days| && days[i].id != dayId ==> days[i] in r
    ensures KeyAbsent(days, DayKey, dayId) ==> r == days
  {
    Filter(days, OtherDay(dayId))
  }

  /** The app draws a fresh uuid for every matching day; `newIds(i)` is the one
      drawn for the day at position i. */
  function AddExerciseToTrainingDay(days: seq<TrainingDay>, dayId: Id, exerciseName: string,
                                    newIds: nat -> Id): (r: seq<TrainingDay>)
    ensures OnlyExercisesOf(days, r, dayId)
    ensures forall i :: 0 <= i < |days| && days[i].id == dayId ==>
              r[i].exercises == days[i].exercises + [Exercise(newIds(i), exerciseName, [])]
    ensures KeyAbsent(days, DayKey, dayId) ==> r == days
  {
    EditDay(days, dayId, (i: nat, exercises: seq<Exercise>) => exercises + [Exercise(newIds(i), exerciseName, [])])
  }

  function DeleteExercise(days: seq<TrainingDay>, dayId: Id, exerciseId: Id): (r: seq<TrainingDay>)
    ensures OnlyExercisesOf(days, r, dayId)
    ensures forall i :: 0 <= i < |days| && days[i].id == dayId ==>
              r[i].exercises == Filter(days[i].exercises, OtherExercise(exerciseId))
    ensures forall i, j :: 0 <= i < |days| && days[i].id == dayId && 0 <= j < |r[i].exercises| ==>
              r[i].exercises[j] in days[i].exercises && r[i].exercises[j].id != exerciseId
    ensures forall i, j ::
              (0 <= i < |days| && days[i].id == dayId && 0 <= j < |days[i].exercises| &&
               days[i].exercises[j].id != exerciseId) ==> days[i].exercises[j] in r[i].exercises
    ensures (forall i :: 0 <= i < |days| && days[i].id == dayId ==>
               KeyAbsent(days[i].exercises, ExerciseKey, exerciseId)) ==> r == days
  {
    EditDay(days, dayId, (i, exercises) => Filter(exercises, OtherExercise(exerciseId)))
  }

  /** The app draws a fresh uuid and reads the clock for every matching
      exercise; `newIds(i, j)` and `dates(i, j)` are those drawn for exercise j
      of day i. */
  function AddHistoryEntry(days: seq<TrainingDay>, dayId: Id, exerciseId: Id, data: NewEntryData,
                           newIds: (nat, nat) -> Id, dates: (nat, nat) -> string, p: Parsers): (r: seq<TrainingDay>)
    ensures OnlyHistoryOf(days, r, dayId, exerciseId)
    ensures forall i, j :: Targets(days, dayId, exerciseId, i, j) ==>
              r[i].exercises[j].history ==
                days[i].exercises[j].history + [NewEntry(newIds(i, j), dates(i, j), data, p)]
  {
    EditDay(days, dayId, (i: nat, exercises: seq<Exercise>) =>
      EditExercise(exercises, exerciseId, (j: nat, history: seq<HistoryEntry>) => history + [NewEntry(newIds(i, j), dates(i, j), data, p)]))
  }

  /** The history after the entries with id `entryId` have been replaced. */
  function ReplaceEntries(history: seq<HistoryEntry>, entryId: Id, data: UpdatedEntryData, p: Parsers): (r: seq<HistoryEntry>)
    ensures |r| == |history|
    ensures forall k :: 0 <= k < |history| && history[k].id != entryId ==> r[k] == history[k]
    ensures forall k :: 0 <= k < |history| && history[k].id == entryId ==> r[k] == UpdatedEntry(history[k], data, p)
  {
    seq(|history|, k requires 0 <= k < |history| =>
      if history[k].id == entryId then UpdatedEntry(history[k], data, p) else history[k])
  }

  function UpdateHistoryEntry(days: seq<TrainingDay>, dayId: Id, exerciseId: Id, entryId: Id,
                              data: UpdatedEntryData, p: Parsers): (r: seq<TrainingDay>)
    ensures OnlyHistoryOf(days, r, dayId, exerciseId)
    ensures forall i, j :: Targets(days, dayId, exerciseId, i, j) ==>
              |r[i].exercises[j].history| == |days[i].exercises[j].history|
    ensures forall i, j, k :: Targets(days, dayId, exerciseId, i, j) && 0 <= k < |days[i].exercises[j].history| ==>
              var old_ := days[i].exercises[j].history[k];
              r[i].exercises[j].history[k] == if old_.id == entryId then UpdatedEntry(old_, data, p) else old_
  {
    EditDay(days, dayId, (i, exercises) =>
      EditExercise(exercises, exerciseId, (j, history) => ReplaceEntries(history, entryId, data, p)))
  }

  function DeleteHistoryEntry(days: seq<TrainingDay>, dayId: Id, exerciseId: Id, historyEntryId: Id): (r: seq<TrainingDay>)
    ensures OnlyHistoryOf(days, r, dayId, exerciseId)
    ensures forall i, j :: Targets(days, dayId, exerciseId, i, j) ==>
              r[i].exercises[j].history == Filter(days[i].exercises[j].history, OtherEntry(historyEntryId))
  {
    EditDay(days, dayId, (i, exercises) =>
      EditExercise(exercises, exerciseId, (j, history) => Filter(history, OtherEntry(historyEntryId))))
  }
}
