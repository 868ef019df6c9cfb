/** Properties of the training-data transforms that relate several calls or
    hold across the whole tree: the id invariant every transform keeps, adds
    that deletes undo, missing ids that change nothing, and the scenarios the
    app goes through. */
module TrainingDataLaws {
  import opened Seqs
  import opened TrainingData

  /** Ids are unique within their scope: days in the tree, exercises in their
      day, entries in their exercise's history. */
  ghost predicate WellFormed(days: seq<TrainingDay>)
  {
    && UniqueKeys(days, DayKey)
    && (forall i :: 0 <= i < |days| ==> UniqueKeys(days[i].exercises, ExerciseKey))
    && (forall i, j :: 0 <= i < |days| && 0 <= j < |days[i].exercises| ==>
          UniqueKeys(days[i].exercises[j].history, EntryKey))
  }

  /** No record anywhere in the tree carries `id`, as a fresh UUID is meant to. */
  ghost predicate IdUnused(days: seq<TrainingDay>, id: Id)
  {
    && KeyAbsent(days, DayKey, id)
    && (forall i :: 0 <= i < |days| ==> KeyAbsent(days[i].exercises, ExerciseKey, id))
    && (forall i, j :: 0 <= i < |days| && 0 <= j < |days[i].exercises| ==>
          KeyAbsent(days[i].exercises[j].history, EntryKey, id))
  }

  /** Each id the app draws while adding exercises is new in the day it goes to. */
  ghost predicate FreshExerciseIds(days: seq<TrainingDay>, newIds: nat -> Id)
  {
    forall i :: 0 <= i < |days| ==> KeyAbsent(days[i].exercises, ExerciseKey, newIds(i))
  }

  /** Each id the app draws while adding entries is new in the history it goes to. */
  ghost predicate FreshEntryIds(days: seq<TrainingDay>, newIds: (nat, nat) -> Id)
  {
    forall i, j :: 0 <= i < |days| && 0 <= j < |days[i].exercises| ==>
      KeyAbsent(days[i].exercises[j].history, EntryKey, newIds(i, j))
  }

  // ---------------------------------------------------------------------------
  // Helpers

  /** Two lists whose elements carry the same keys position by position are
      equally free of duplicates. */
  lemma SameKeys<T>(a: seq<T>, b: seq<T>, key: T -> string)
    requires |a| == |b| && forall i :: 0 <= i < |a| ==> key(a[i]) == key(b[i])
    requires UniqueKeys(a, key)
    ensures UniqueKeys(b, key)
  {
    forall i, j | 0 <= i < j < |b| ensures key(b[i]) != key(b[j]) {
      assert key(a[i]) != key(a[j]);
    }
  }

  /** A day that occurs in a well-formed tree has unique exercise ids and
      unique entry ids in each history. */
  lemma MemberDayWellFormed(days: seq<TrainingDay>, d: TrainingDay)
    requires WellFormed(days) && d in days
    ensures UniqueKeys(d.exercises, ExerciseKey)
    ensures forall j :: 0 <= j < |d.exercises| ==> UniqueKeys(d.exercises[j].history, EntryKey)
  {
    var i :| 0 <= i < |days| && days[i] == d;
  }

  // ---------------------------------------------------------------------------
  // Every transform keeps ids unique

  lemma AddTrainingDayKeepsWellFormed(days: seq<TrainingDay>, dayName: string, newId: Id)
    requires WellFormed(days) && IdUnused(days, newId)
    ensures WellFormed(AddTrainingDay(days, dayName, newId))
  {
    var r := AddTrainingDay(days, dayName, newId);
    AppendKeepsUniqueKeys(days, TrainingDay(newId, dayName, []), DayKey);
    forall i | 0 <= i < |days| ensures r[i] == days[i] {
      assert r[..|days|][i] == r[i];
    }
  }

  lemma DeleteTrainingDayKeepsWellFormed(days: seq<TrainingDay>, dayId: Id)
    requires WellFormed(days)
    ensures WellFormed(DeleteTrainingDay(days, dayId))
  {
    var r := DeleteTrainingDay(days, dayId);
    FilterKeepsUniqueKeys(days, OtherDay(dayId), DayKey);
    forall i | 0 <= i < |r|
      ensures UniqueKeys(r[i].exercises, ExerciseKey)
      ensures forall j :: 0 <= j < |r[i].exercises| ==> UniqueKeys(r[i].exercises[j].history, EntryKey)
    {
      MemberDayWellFormed(days, r[i]);
    }
  }

  lemma AddExerciseKeepsWellFormed(days: seq<TrainingDay>, dayId: Id, exerciseName: string, newIds: nat -> Id)
    requires WellFormed(days) && FreshExerciseIds(days, newIds)
    ensures WellFormed(AddExerciseToTrainingDay(days, dayId, exerciseName, newIds))
  {
    var r := AddExerciseToTrainingDay(days, dayId, exerciseName, newIds);
    SameKeys(days, r, DayKey);
    forall i | 0 <= i < |r| && days[i].id == dayId
      ensures UniqueKeys(r[i].exercises, ExerciseKey)
      ensures forall j :: 0 <= j < |r[i].exercises| ==> UniqueKeys(r[i].exercises[j].history, EntryKey)
    {
      var added := Exercise(newIds(i), exerciseName, []);
      AppendKeepsUniqueKeys(days[i].exercises, added, ExerciseKey);
      forall j | 0 <= j < |r[i].exercises| ensures UniqueKeys(r[i].exercises[j].history, EntryKey) {
        if j < |days[i].exercises| {
          assert r[i].exercises[j] == days[i].exercises[j];
        }
      }
    }
  }

  lemma DeleteExerciseKeepsWellFormed(days: seq<TrainingDay>, dayId: Id, exerciseId: Id)
    requires WellFormed(days)
    ensures WellFormed(DeleteExercise(days, dayId, exerciseId))
  {
    var r := DeleteExercise(days, dayId, exerciseId);
    SameKeys(days, r, DayKey);
    forall i | 0 <= i < |r| && days[i].id == dayId
      ensures UniqueKeys(r[i].exercises, ExerciseKey)
      ensures forall j :: 0 <= j < |r[i].exercises| ==> UniqueKeys(r[i].exercises[j].history, EntryKey)
    {
      FilterKeepsUniqueKeys(days[i].exercises, OtherExercise(exerciseId), ExerciseKey);
      forall j | 0 <= j < |r[i].exercises| ensures UniqueKeys(r[i].exercises[j].history, EntryKey) {
        var k :| 0 <= k < |days[i].exercises| && days[i].exercises[k] == r[i].exercises[j];
      }
    }
  }

  /** The history-level transforms keep every day id and every exercise id in
      place, so only the targeted histories need a fresh look. */
  lemma HistoryEditKeepsOuterKeys(days: seq<TrainingDay>, r: seq<TrainingDay>, dayId: Id, exerciseId: Id)
    requires WellFormed(days) && OnlyHistoryOf(days, r, dayId, exerciseId)
    requires forall i, j :: Targets(days, dayId, exerciseId, i, j) ==>
               UniqueKeys(r[i].exercises[j].history, EntryKey)
    ensures WellFormed(r)
  {
    SameKeys(days, r, DayKey);
    forall i | 0 <= i < |r| && days[i].id == dayId
      ensures UniqueKeys(r[i].exercises, ExerciseKey)
      ensures forall j :: 0 <= j < |r[i].exercises| ==> UniqueKeys(r[i].exercises[j].history, EntryKey)
    {
      SameKeys(days[i].exercises, r[i].exercises, ExerciseKey);
      forall j | 0 <= j < |r[i].exercises| ensures UniqueKeys(r[i].exercises[j].history, EntryKey) {
        if days[i].exercises[j].id == exerciseId {
          assert Targets(days, dayId, exerciseId, i, j);
        }
      }
    }
  }

  lemma AddHistoryEntryKeepsWellFormed(days: seq<TrainingDay>, dayId: Id, exerciseId: Id, data: NewEntryData,
                                       newIds: (nat, nat) -> Id, dates: (nat, nat) -> string, p: Parsers)
    requires WellFormed(days) && FreshEntryIds(days, newIds)
    ensures WellFormed(AddHistoryEntry(days, dayId, exerciseId, data, newIds, dates, p))
  {
    var r := AddHistoryEntry(days, dayId, exerciseId, data, newIds, dates, p);
    forall i, j | Targets(days, dayId, exerciseId, i, j) ensures UniqueKeys(r[i].exercises[j].history, EntryKey) {
      AppendKeepsUniqueKeys(days[i].exercises[j].history, NewEntry(newIds(i, j), dates(i, j), data, p), EntryKey);
    }
    HistoryEditKeepsOuterKeys(days, r, dayId, exerciseId);
  }

  lemma UpdateHistoryEntryKeepsWellFormed(days: seq<TrainingDay>, dayId: Id, exerciseId: Id, entryId: Id,
                                          data: UpdatedEntryData, p: Parsers)
    requires WellFormed(days)
    ensures WellFormed(UpdateHistoryEntry(days, dayId, exerciseId, entryId, data, p))
  {
    var r := UpdateHistoryEntry(days, dayId, exerciseId, entryId, data, p);
    forall i, j | Targets(days, dayId, exerciseId, i, j) ensures UniqueKeys(r[i].exercises[j].history, EntryKey) {
      SameKeys(days[i].exercises[j].history, r[i].exercises[j].history, EntryKey);
    }
    HistoryEditKeepsOuterKeys(days, r, dayId, exerciseId);
  }

  lemma DeleteHistoryEntryKeepsWellFormed(days: seq<TrainingDay>, dayId: Id, exerciseId: Id, historyEntryId: Id)
    requires WellFormed(days)
    ensures WellFormed(DeleteHistoryEntry(days, dayId, exerciseId, historyEntryId))
  {
    var r := DeleteHistoryEntry(days, dayId, exerciseId, historyEntryId);
    forall i, j | Targets(days, dayId, exerciseId, i, j) ensures UniqueKeys(r[i].exercises[j].history, EntryKey) {
      FilterKeepsUniqueKeys(days[i].exercises[j].history, OtherEntry(historyEntryId), EntryKey);
    }
    HistoryEditKeepsOuterKeys(days, r, dayId, exerciseId);
  }

  // ---------------------------------------------------------------------------
  // Deletes undo adds

  lemma DeleteUndoesAddTrainingDay(days: seq<TrainingDay>, dayName: string, newId: Id)
    requires KeyAbsent(days, DayKey, newId)
    ensures DeleteTrainingDay(AddTrainingDay(days, dayName, newId), newId) == days
  {
    AppendThenFilterOut(days, TrainingDay(newId, dayName, []), OtherDay(newId));
  }

  /** Day ids being unique, the day at position m is the only one that gets a
      new exercise, and deleting that exercise by its id gives the tree back. */
  lemma DeleteUndoesAddExercise(days: seq<TrainingDay>, dayId: Id, exerciseName: string, newIds: nat -> Id, m: nat)
    requires UniqueKeys(days, DayKey) && m < |days| && days[m].id == dayId
    requires KeyAbsent(days[m].exercises, ExerciseKey, newIds(m))
    ensures DeleteExercise(AddExerciseToTrainingDay(days, dayId, exerciseName, newIds), dayId, newIds(m)) == days
  {
    var added := AddExerciseToTrainingDay(days, dayId, exerciseName, newIds);
    var r := DeleteExercise(added, dayId, newIds(m));
    forall i | 0 <= i < |days| ensures r[i] == days[i] {
      if i == m {
        AppendThenFilterOut(days[m].exercises, Exercise(newIds(m), exerciseName, []), OtherExercise(newIds(m)));
      } else {
        assert DayKey(days[i]) != DayKey(days[m]);
      }
    }
  }

  /** When two days share an id, adding an exercise to that id gives each day
      its own new exercise, and deleting the first one's id leaves the second. */
  lemma RepeatedDayIdKeepsSecondExercise(d: TrainingDay, e: TrainingDay, exerciseName: string, newIds: nat -> Id)
    requires d.id == e.id && d.exercises == [] && e.exercises == [] && newIds(0) != newIds(1)
    ensures var added := AddExerciseToTrainingDay([d, e], d.id, exerciseName, newIds);
            DeleteExercise(added, d.id, newIds(0)) == [d, e.(exercises := [Exercise(newIds(1), exerciseName, [])])]
  {
    var added := AddExerciseToTrainingDay([d, e], d.id, exerciseName, newIds);
    var r := DeleteExercise(added, d.id, newIds(0));
    assert added[0].exercises == [Exercise(newIds(0), exerciseName, [])];
    assert added[1].exercises == [Exercise(newIds(1), exerciseName, [])];
    assert Filter(added[0].exercises, OtherExercise(newIds(0))) == [] by {
      assert added[0].exercises[1..] == [];
    }
    assert r[0] == d;
  }

  /** Day ids and the exercise ids of day m being unique, exercise n of day m
      is the only one that gets a new entry, and deleting that entry by its id
      gives the tree back. */
  lemma DeleteUndoesAddHistoryEntry(days: seq<TrainingDay>, dayId: Id, exerciseId: Id, data: NewEntryData,
                                    newIds: (nat, nat) -> Id, dates: (nat, nat) -> string, p: Parsers, m: nat, n: nat)
    requires UniqueKeys(days, DayKey) && Targets(days, dayId, exerciseId, m, n)
    requires UniqueKeys(days[m].exercises, ExerciseKey)
    requires KeyAbsent(days[m].exercises[n].history, EntryKey, newIds(m, n))
    ensures var added := AddHistoryEntry(days, dayId, exerciseId, data, newIds, dates, p);
            DeleteHistoryEntry(added, dayId, exerciseId, newIds(m, n)) == days
  {
    var added := AddHistoryEntry(days, dayId, exerciseId, data, newIds, dates, p);
    var r := DeleteHistoryEntry(added, dayId, exerciseId, newIds(m, n));
    forall i | 0 <= i < |days| ensures r[i] == days[i] {
      if i != m {
        assert DayKey(days[i]) != DayKey(days[m]);
      } else {
        forall j | 0 <= j < |days[m].exercises| ensures r[m].exercises[j] == days[m].exercises[j] {
          if j != n {
            assert ExerciseKey(days[m].exercises[j]) != ExerciseKey(days[m].exercises[n]);
          } else {
            assert Targets(added, dayId, exerciseId, m, n);
            AppendThenFilterOut(days[m].exercises[n].history, NewEntry(newIds(m, n), dates(m, n), data, p),
                                OtherEntry(newIds(m, n)));
          }
        }
      }
    }
  }

  // ---------------------------------------------------------------------------
  // Missing ids change nothing

  lemma AddExerciseToMissingDayIsNoOp(days: seq<TrainingDay>, dayId: Id, exerciseName: string, newIds: nat -> Id)
    requires KeyAbsent(days, DayKey, dayId)
    ensures AddExerciseToTrainingDay(days, dayId, exerciseName, newIds) == days
  {
    var r := AddExerciseToTrainingDay(days, dayId, exerciseName, newIds);
    assert forall i :: 0 <= i < |days| ==> r[i] == days[i];
  }

  /** No exercise `exerciseId` inside a day `dayId`: the history-level
      transforms return the tree unchanged. */
  ghost predicate NoTarget(days: seq<TrainingDay>, dayId: Id, exerciseId: Id)
  {
    forall i, j :: !Targets(days, dayId, exerciseId, i, j)
  }

  /** A tree related to `days` by OnlyHistoryOf whose targeted histories are
      unchanged is `days` itself. */
  lemma HistoriesUnchanged(days: seq<TrainingDay>, r: seq<TrainingDay>, dayId: Id, exerciseId: Id)
    requires OnlyHistoryOf(days, r, dayId, exerciseId)
    requires forall i, j :: Targets(days, dayId, exerciseId, i, j) ==>
               r[i].exercises[j].history == days[i].exercises[j].history
    ensures r == days
  {
    forall i | 0 <= i < |days| ensures r[i] == days[i] {
      if days[i].id == dayId {
        forall j | 0 <= j < |days[i].exercises| ensures r[i].exercises[j] == days[i].exercises[j] {
          if days[i].exercises[j].id == exerciseId {
            assert Targets(days, dayId, exerciseId, i, j);
          }
        }
      }
    }
  }

  lemma AddHistoryEntryToMissingExerciseIsNoOp(days: seq<TrainingDay>, dayId: Id, exerciseId: Id, data: NewEntryData,
                                               newIds: (nat, nat) -> Id, dates: (nat, nat) -> string, p: Parsers)
    requires NoTarget(days, dayId, exerciseId)
    ensures AddHistoryEntry(days, dayId, exerciseId, data, newIds, dates, p) == days
  {
    HistoriesUnchanged(days, AddHistoryEntry(days, dayId, exerciseId, data, newIds, dates, p), dayId, exerciseId);
  }

  /** The targeted histories hold no entry `entryId`. */
  ghost predicate EntryMissing(days: seq<TrainingDay>, dayId: Id, exerciseId: Id, entryId: Id)
  {
    forall i, j :: Targets(days, dayId, exerciseId, i, j) ==>
      KeyAbsent(days[i].exercises[j].history, EntryKey, entryId)
  }

  lemma UpdateMissingEntryIsNoOp(days: seq<TrainingDay>, dayId: Id, exerciseId: Id, entryId: Id,
                                 data: UpdatedEntryData, p: Parsers)
    requires EntryMissing(days, dayId, exerciseId, entryId)
    ensures UpdateHistoryEntry(days, dayId, exerciseId, entryId, data, p) == days
  {
    var r := UpdateHistoryEntry(days, dayId, exerciseId, entryId, data, p);
    forall i, j | Targets(days, dayId, exerciseId, i, j)
      ensures r[i].exercises[j].history == days[i].exercises[j].history
    {
    }
    HistoriesUnchanged(days, r, dayId, exerciseId);
  }

  lemma DeleteMissingEntryIsNoOp(days: seq<TrainingDay>, dayId: Id, exerciseId: Id, historyEntryId: Id)
    requires EntryMissing(days, dayId, exerciseId, historyEntryId)
    ensures DeleteHistoryEntry(days, dayId, exerciseId, historyEntryId) == days
  {
    HistoriesUnchanged(days, DeleteHistoryEntry(days, dayId, exerciseId, historyEntryId), dayId, exerciseId);
  }

  // ---------------------------------------------------------------------------
  // Update laws

  /** Applying the same update twice is applying it once. */
  lemma UpdateHistoryEntryIdempotent(days: seq<TrainingDay>, dayId: Id, exerciseId: Id, entryId: Id,
                                     data: UpdatedEntryData, p: Parsers)
    ensures var once := UpdateHistoryEntry(days, dayId, exerciseId, entryId, data, p);
            UpdateHistoryEntry(once, dayId, exerciseId, entryId, data, p) == once
  {
    var once := UpdateHistoryEntry(days, dayId, exerciseId, entryId, data, p);
    var twice := UpdateHistoryEntry(once, dayId, exerciseId, entryId, data, p);
    forall i, j | Targets(once, dayId, exerciseId, i, j)
      ensures twice[i].exercises[j].history == once[i].exercises[j].history
    {
      assert Targets(days, dayId, exerciseId, i, j);
    }
    HistoriesUnchanged(once, twice, dayId, exerciseId);
  }

  /** Replacing entries and then filtering them out is filtering them out. */
  lemma {:induction false} FilterAfterReplace(history: seq<HistoryEntry>, entryId: Id, data: UpdatedEntryData, p: Parsers)
    ensures Filter(ReplaceEntries(history, entryId, data, p), OtherEntry(entryId)) == Filter(history, OtherEntry(entryId))
  {
    if history != [] {
      var replaced := ReplaceEntries(history, entryId, data, p);
      assert replaced[1..] == ReplaceEntries(history[1..], entryId, data, p);
      FilterAfterReplace(history[1..], entryId, data, p);
    }
  }

  /** Deleting an entry after updating it is the same as deleting it. */
  lemma DeleteAfterUpdate(days: seq<TrainingDay>, dayId: Id, exerciseId: Id, entryId: Id,
                          data: UpdatedEntryData, p: Parsers)
    ensures DeleteHistoryEntry(UpdateHistoryEntry(days, dayId, exerciseId, entryId, data, p), dayId, exerciseId, entryId)
            == DeleteHistoryEntry(days, dayId, exerciseId, entryId)
  {
    var updated := UpdateHistoryEntry(days, dayId, exerciseId, entryId, data, p);
    var lhs := DeleteHistoryEntry(updated, dayId, exerciseId, entryId);
    var rhs := DeleteHistoryEntry(days, dayId, exerciseId, entryId);
    forall i | 0 <= i < |days| ensures lhs[i] == rhs[i] {
      if days[i].id == dayId {
        forall j | 0 <= j < |days[i].exercises| ensures lhs[i].exercises[j] == rhs[i].exercises[j] {
          if days[i].exercises[j].id == exerciseId {
            assert Targets(days, dayId, exerciseId, i, j);
            assert Targets(updated, dayId, exerciseId, i, j);
            var history := days[i].exercises[j].history;
            assert updated[i].exercises[j].history == ReplaceEntries(history, entryId, data, p);
            FilterAfterReplace(history, entryId, data, p);
          }
        }
      }
    }
  }

  // ---------------------------------------------------------------------------
  // Order

  /** Deleting a day keeps the others in their order: deleting from two
      halves and joining is deleting from the whole. */
  lemma DeleteTrainingDayKeepsOrder(front: seq<TrainingDay>, back: seq<TrainingDay>, dayId: Id)
    ensures DeleteTrainingDay(front + back, dayId) == DeleteTrainingDay(front, dayId) + DeleteTrainingDay(back, dayId)
  {
    FilterConcat(front, back, OtherDay(dayId));
  }

  // ---------------------------------------------------------------------------
  // Scenarios

  /** Create a day, give it an exercise, log a set of 3 x 8 at 60, then delete
      the day: the tree is empty again, and the logged entry was parsed from
      the form's text. */
  lemma PushDayScenario(dayId: Id, exerciseIds: nat -> Id, entryIds: (nat, nat) -> Id,
                        dates: (nat, nat) -> string, p: Parsers)
    ensures var t1 := AddTrainingDay([], "Push Day", dayId);
            var t2 := AddExerciseToTrainingDay(t1, dayId, "Bench Press", exerciseIds);
            var t3 := AddHistoryEntry(t2, dayId, exerciseIds(0), NewEntryData("3", "8", "60"), entryIds, dates, p);
            && t3 == [TrainingDay(dayId, "Push Day", [Exercise(exerciseIds(0), "Bench Press",
                        [HistoryEntry(entryIds(0, 0), dates(0, 0), p.parseInt("3"),
                                      Amount(p.parseFloat("8")), Amount(p.parseFloat("60")))])])]
            && DeleteTrainingDay(t3, dayId) == []
  {
    var exerciseId := exerciseIds(0);
    var t1 := AddTrainingDay([], "Push Day", dayId);
    assert t1 == [TrainingDay(dayId, "Push Day", [])];
    var t2 := AddExerciseToTrainingDay(t1, dayId, "Bench Press", exerciseIds);
    assert t1[0].id == dayId && t1[0].exercises == [];
    assert |t2| == 1 && t2[0].id == dayId && t2[0].name == "Push Day";
    assert t2[0].exercises == [] + [Exercise(exerciseId, "Bench Press", [])];
    assert t2[0].exercises == [Exercise(exerciseId, "Bench Press", [])];
    assert t2[0] == TrainingDay(dayId, "Push Day", [Exercise(exerciseId, "Bench Press", [])]);
    assert t2 == [TrainingDay(dayId, "Push Day", [Exercise(exerciseId, "Bench Press", [])])];
    var t3 := AddHistoryEntry(t2, dayId, exerciseId, NewEntryData("3", "8", "60"), entryIds, dates, p);
    assert Targets(t2, dayId, exerciseId, 0, 0);
    assert "8" !in BodyweightSpellings && "60" !in BodyweightSpellings;
    var entry := HistoryEntry(entryIds(0, 0), dates(0, 0), p.parseInt("3"), Amount(p.parseFloat("8")), Amount(p.parseFloat("60")));
    assert NewEntry(entryIds(0, 0), dates(0, 0), NewEntryData("3", "8", "60"), p) == entry;
    assert t3[0].exercises[0].history == [] + [entry] == [entry];
    assert t3[0].exercises == [Exercise(exerciseId, "Bench Press", [entry])];
    assert t3 == [TrainingDay(dayId, "Push Day", [Exercise(exerciseId, "Bench Press", [entry])])];
    assert t3[1..] == [];
  }
}
