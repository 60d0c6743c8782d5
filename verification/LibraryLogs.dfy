// The undo log and the import batches over a history: which step made an
// entry, how long it stays, and what undoing it answers and gives back.
module LibraryLogs {
  import opened Prelude
  import opened LibraryTypes
  import opened LibraryTables
  import opened LibraryLedger
  import opened LibraryWrites
  import opened LibraryUndo
  import opened LibraryImport
  import opened LibraryHistory
  import opened LibraryInvariant
  import Text

  // ---- What one step does to the undo log ---------------------------------

  /** The step carries this undo token and happens at this time. */
  predicate Carries(s: Step, token: nat, now: Instant) {
    match s
    case DoWrite(_, _, _, k, at) => token == k && now == at
    case DoReplace(_, _, k, at) => token == k && now == at
    case DoDelete(_, k, at) => token == k && now == at
    case DoBulk(_, k, at) => token == k && now == at
    case DoLogSynced(_, _, _, _, k, at) => token == k && now == at
    case DoRemoveSession(_, k, at) => token == k && now == at
    case DoEditSession(_, _, k, at) => token == k && now == at
    case DoEditPlaythrough(_, _, k, at) => token == k && now == at
    case DoDeletePlaythrough(_, k, at) => token == k && now == at
    case DoStopTimer(_, _, _, k, at) => token == k && now == at
    case _ => false
  }

  /**
   * Under its token a step at time now has recorded every game it changed, as it was; with a record
   * what is older than fifteen minutes goes, and nothing else is new.
   */
  ghost predicate Recorded(db: Db, r: Db, token: nat, now: Instant) {
    && (forall k | k in r.undo ::
          || (k in db.undo && r.undo[k] == db.undo[k])
          || (k == token && r.undo[k].createdAt == now && SnapsOf(db.tables, r.undo[k].snaps)))
    && (forall k | k in db.undo && now - 900 <= db.undo[k].createdAt :: k in r.undo && r.undo[k] == db.undo[k])
    && (r.undo != db.undo ==> forall k | k in r.undo :: now - 900 <= r.undo[k].createdAt)
    && (forall g | TakeSnapshot(r.tables, g) != TakeSnapshot(db.tables, g) ::
          && token in r.undo && r.undo[token].createdAt == now
          && SnapsOf(db.tables, r.undo[token].snaps) && Named(r.undo[token].snaps, g))
    && r.batches == db.batches
  }

  lemma NothingRecorded(db: Db, r: Db, token: nat, now: Instant)
    requires r.tables == db.tables && r.undo == db.undo && r.batches == db.batches
    ensures Recorded(db, r, token, now)
  {
    hide TakeSnapshot, SnapsOf;
  }

  lemma SavingRecords(db: Db, d1: Db, t: Tables, snaps: seq<Snapshot>, token: nat, now: Instant)
    requires SnapsOf(db.tables, snaps) && d1.undo == db.undo && d1.batches == db.batches
    requires forall g | !Named(snaps, g) :: TakeSnapshot(t, g) == TakeSnapshot(db.tables, g)
    requires SaveUndo(d1, t, snaps, token, now).Ok?
    ensures Recorded(db, SaveUndo(d1, t, snaps, token, now).value, token, now)
  {
    hide TakeSnapshot, SnapsOf;
  }

  lemma RecordsOne(db: Db, d1: Db, t: Tables, g: GameId, token: nat, now: Instant)
    requires OnlyItem(db.tables, t, g) && d1.undo == db.undo && d1.batches == db.batches
    requires SaveUndo(d1, t, [TakeSnapshot(db.tables, g)], token, now).Ok?
    ensures Recorded(db, SaveUndo(d1, t, [TakeSnapshot(db.tables, g)], token, now).value, token, now)
  {
    hide TakeSnapshot, SaveUndo, Recorded, OnlyItem;
    OneSnapshot(db.tables, g);
    SnapshotGame(db.tables, g);
    var snaps := [TakeSnapshot(db.tables, g)];
    forall h | !Named(snaps, h) ensures TakeSnapshot(t, h) == TakeSnapshot(db.tables, h) {
      assert snaps[0].game == g;
      SnapshotFramed(db.tables, t, g, h);
    }
    SavingRecords(db, d1, t, snaps, token, now);
  }

  lemma RecordsWrite(db: Db, g: GameId, ch: Change, mode: Mode, token: nat, now: Instant)
    requires Inv(db) && Write(db, g, ch, mode, token, now).Ok?
    ensures Recorded(db, Write(db, g, ch, mode, token, now).value, token, now)
  {
    hide Sound, LogsGood, Linked, KeepsOrder, ApplyChange, SaveUndo, TakeSnapshot, Recorded, Moves;
    LinkedAt(db.tables, g);
    ApplyChangeMoves(db.tables, g, ch, mode, now);
    MovedOnly(db.tables, ApplyChange(db.tables, g, ch, mode, now).value, g);
    RecordsOne(db, db, ApplyChange(db.tables, g, ch, mode, now).value, g, token, now);
  }

  lemma TouchedSnapshots(a: Tables, t: Tables, snaps: seq<Snapshot>)
    requires Touched(a, t, snaps)
    ensures SnapsOf(a, snaps) && forall g | !Named(snaps, g) :: TakeSnapshot(t, g) == TakeSnapshot(a, g)
  {
    hide TakeSnapshot, Proceeds, SnapsOf, AllInOrder, Named;
  }

  lemma RecordsDeletion(db: Db, ids: seq<GameId>, requireAll: bool, token: nat, now: Instant)
    requires Inv(db) && DistinctIds(ids) && DeleteMany(db, ids, requireAll, token, now).Ok?
    ensures Recorded(db, DeleteMany(db, ids, requireAll, token, now).value, token, now)
  {
    hide Sound, AllLinked, LogsGood, Touched, DeleteEach, SnapsOf, SaveUndo, Recorded, TakeSnapshot;
    NothingTouched(db.tables);
    DeleteEachTouches(db.tables, Deleting(db.tables, db.timer, []), ids, requireAll);
    var d := DeleteEach(Deleting(db.tables, db.timer, []), ids, requireAll).value;
    TouchedSnapshots(db.tables, d.tables, d.snaps);
    SavingRecords(db, db.(timer := d.timer), d.tables, d.snaps, token, now);
  }

  lemma RecordsBulk(db: Db, a: BulkAction, token: nat, now: Instant)
    requires Inv(db) && Bulk(db, a, token, now).Ok?
    ensures Recorded(db, Bulk(db, a, token, now).value, token, now)
  {
    hide Sound, AllLinked, LogsGood, Touched, DeleteMany, BulkEach, DedupeIds, SnapsOf, SaveUndo, Recorded,
         TakeSnapshot;
    var ids := DedupeIds(a.games, {});
    DedupedDistinct(a.games, {});
    if a.remove {
      RecordsDeletion(db, ids, false, token, now);
    } else {
      NothingTouched(db.tables);
      BulkEachTouches(db.tables, Bulking(db.tables, []), ids, a, now);
      var b := BulkEach(Bulking(db.tables, []), ids, a, now).value;
      TouchedSnapshots(db.tables, b.tables, b.snaps);
      SavingRecords(db, db, b.tables, b.snaps, token, now);
    }
  }

  lemma RecordsLog(db: Db, d1: Db, g: GameId, day: Day, minutes: int, source: Source, token: nat, now: Instant)
    requires Inv(db) && d1.tables == db.tables && d1.undo == db.undo && d1.batches == db.batches
    requires LogOnCurrent(d1, g, day, minutes, source, token, now).Ok?
    ensures Recorded(db, LogOnCurrent(d1, g, day, minutes, source, token, now).value, token, now)
  {
    hide Sound, LogsGood, InsertSession, SaveUndo, Recorded, TakeSnapshot, Moves;
    var t := db.tables;
    var s := Session(g, t.items[g].current, day, minutes, "", source, now);
    LinkedAt(t, g);
    FreshSessionId(t);
    InsertSessionMoves(t, t.sessSeq + 1, s, now);
    MovedOnly(t, InsertSession(t, t.sessSeq + 1, s, now).value, g);
    RecordsOne(db, d1, InsertSession(t, t.sessSeq + 1, s, now).value, g, token, now);
  }

  lemma RecordsRemoval(db: Db, id: nat, token: nat, now: Instant)
    requires Inv(db) && RemoveSession(db, id, token, now).Ok?
    ensures Recorded(db, RemoveSession(db, id, token, now).value, token, now)
  {
    hide Sound, AllLinked, LogsGood, DeleteSession, SaveUndo, Recorded, TakeSnapshot, Moves;
    var t := db.tables;
    DeleteSessionMoves(t, id);
    MovedOnly(t, DeleteSession(t, id), t.sessions[id].game);
    RecordsOne(db, db, DeleteSession(t, id), t.sessions[id].game, token, now);
  }

  lemma RecordsSessionEdit(db: Db, id: nat, e: SessionEdit, token: nat, now: Instant)
    requires Inv(db) && EditSession(db, id, e, token, now).Ok?
    ensures Recorded(db, EditSession(db, id, e, token, now).value, token, now)
  {
    hide Sound, AllLinked, LogsGood, UpdateSession, SaveUndo, Recorded, TakeSnapshot, Moves, Text.Trim;
    var t := db.tables;
    var s := t.sessions[id];
    var day := if e.playedOn.Some? then e.playedOn.value.day else s.playedOn;
    var minutes := if e.minutes.Some? then e.minutes.value else s.minutes;
    var note := if e.note.Some? then Text.Trim(e.note.value) else s.note;
    UpdateSessionMoves(t, id, day, minutes, note);
    MovedOnly(t, UpdateSession(t, id, day, minutes, note).value, s.game);
    RecordsOne(db, db, UpdateSession(t, id, day, minutes, note).value, s.game, token, now);
  }

  lemma RecordsRunEdit(db: Db, id: nat, e: RunEdit, token: nat, now: Instant)
    requires Inv(db) && EditPlaythrough(db, id, e, token, now).Ok?
    ensures Recorded(db, EditPlaythrough(db, id, e, token, now).value, token, now)
  {
    hide Sound, LogsGood, AllLinked, SaveUndo, Recorded, TakeSnapshot, Moves, UpdateItem, UpdateRun, EditedRun;
    var t := db.tables;
    var g := t.runs[id].game;
    RunIsSound(t, id);
    EditedMoves(t, id, e);
    MovesReflexive(t, g);
    var t1 := if e == NO_RUN_EDIT then t else UpdateItem(UpdateRun(t, id, EditedRun(t.runs[id], e)), g, t.items[g]);
    MovedOnly(t, t1, g);
    RecordsOne(db, db, t1, g, token, now);
  }

  lemma RecordsRunDeletion(db: Db, id: nat, token: nat, now: Instant)
    requires Inv(db) && DeletePlaythrough(db, id, token, now).Ok?
    ensures Recorded(db, DeletePlaythrough(db, id, token, now).value, token, now)
  {
    hide Sound, LogsGood, AllLinked, SaveUndo, Recorded, TakeSnapshot, Moves, DeleteRun, ClearCurrent;
    var t := db.tables;
    var g := t.runs[id].game;
    var t1 := DeleteRun(t, id);
    DeleteRunMoves(t, id);
    MovedKeeps(t, t1, g);
    ClearCurrentMoves(t1, g, id);
    MovesTransitive(t, t1, ClearCurrent(t1, g, id), g);
    MovedOnly(t, ClearCurrent(t1, g, id), g);
    RecordsOne(db, db, ClearCurrent(t1, g, id), g, token, now);
  }

  lemma RecordsTimer(db: Db, log: bool, minutes: int, playedOn: DayText, token: nat, now: Instant)
    requires Inv(db)
    ensures Recorded(db, StopTimer(db, log, minutes, playedOn, token, now).0, token, now)
  {
    hide Inv, LogOnCurrent, TimerMinutes, Recorded;
    var stopped := db.(timer := None);
    NothingRecorded(db, db, token, now);
    NothingRecorded(db, stopped, token, now);
    if db.timer.Some? && log {
      var m := TimerMinutes(minutes, db.timer.value.startedAt, now);
      if LogOnCurrent(stopped, db.timer.value.game, Today(playedOn, now), m, Timer, token, now).Ok? {
        RecordsLog(db, stopped, db.timer.value.game, Today(playedOn, now), m, Timer, token, now);
      }
    }
  }

  /** Whatever a step with a token changes it has recorded under it, and it drops no entry still alive. */
  lemma StepRecorded(db: Db, s: Step, token: nat, now: Instant)
    requires Inv(db) && Carries(s, token, now)
    ensures Recorded(db, Next(db, s), token, now)
  {
    hide Inv, Recorded, Write, DeleteMany, Bulk, LogOnCurrent, RemoveSession, EditSession, EditPlaythrough,
         DeletePlaythrough, StopTimer, ReplaceChange;
    NothingRecorded(db, db, token, now);
    if Attempt(db, s).Ok? {
      match s
      case DoWrite(g, ch, mode, _, _) => RecordsWrite(db, g, ch, mode, token, now);
      case DoReplace(g, ch, _, _) => RecordsWrite(db, g, ReplaceChange(ch), Upsert, token, now);
      case DoDelete(g, _, _) => RecordsDeletion(db, [g], true, token, now);
      case DoBulk(a, _, _) => RecordsBulk(db, a, token, now);
      case DoLogSynced(g, m, day, source, _, _) => RecordsLog(db, db, g, day.day, m, source, token, now);
      case DoRemoveSession(id, _, _) => RecordsRemoval(db, id, token, now);
      case DoEditSession(id, e, _, _) => RecordsSessionEdit(db, id, e, token, now);
      case DoEditPlaythrough(id, e, _, _) => RecordsRunEdit(db, id, e, token, now);
      case DoDeletePlaythrough(id, _, _) => RecordsRunDeletion(db, id, token, now);
      case DoStopTimer(log, m, day, _, _) => RecordsTimer(db, log, m, day, token, now);
    }
  }

  /** The time at which a step looks at the age of entries. */
  function Clock(s: Step): Option<Instant> {
    match s
    case DoWrite(_, _, _, _, at) => Some(at)
    case DoReplace(_, _, _, at) => Some(at)
    case DoDelete(_, _, at) => Some(at)
    case DoBulk(_, _, at) => Some(at)
    case DoLogSynced(_, _, _, _, _, at) => Some(at)
    case DoRemoveSession(_, _, at) => Some(at)
    case DoEditSession(_, _, _, at) => Some(at)
    case DoEditPlaythrough(_, _, _, at) => Some(at)
    case DoDeletePlaythrough(_, _, at) => Some(at)
    case DoStopTimer(_, _, _, _, at) => Some(at)
    case DoPrune(at) => Some(at)
    case _ => None
  }

  /** A step leaves an entry alone that is not older than fifteen minutes by its clock, unless it undoes it. */
  lemma EntryStays(db: Db, s: Step, k: nat)
    requires Inv(db) && k in db.undo && (s.DoUndo? ==> s.token != k)
    requires Clock(s).Some? ==> Clock(s).value - 900 <= db.undo[k].createdAt
    ensures k in Next(db, s).undo && Next(db, s).undo[k] == db.undo[k]
  {
    if s.DoUndo? || s.DoUndoImport? || s.DoImport? || s.DoStartTimer? || s.CatalogPut? || s.OtherUsers? || s.DoPrune?
       || s.DoPrefs?
    {
      hide Inv, RestoreAll, ImportAll, PutGame;
    } else {
      hide Inv, Next, TakeSnapshot, SnapsOf, Named;
      StepRecorded(db, s, s.token, s.now);
    }
  }

  /** A step that carries no token makes no entry. */
  lemma NoEntryMade(db: Db, s: Step, k: nat)
    requires k in Next(db, s).undo && !exists token, now :: Carries(s, token, now)
    ensures k in db.undo && Next(db, s).undo[k] == db.undo[k]
  {
    hide RestoreAll, ImportAll, PutGame, Carries;
    if !(s.DoUndo? || s.DoUndoImport? || s.DoImport? || s.DoStartTimer? || s.CatalogPut? || s.OtherUsers? || s.DoPrune?
         || s.DoPrefs?)
    {
      CarriesItsOwn(s);
    }
  }

  lemma CarriesItsOwn(s: Step)
    requires !(s.DoUndo? || s.DoUndoImport? || s.DoImport? || s.DoStartTimer? || s.CatalogPut? || s.OtherUsers?
               || s.DoPrune? || s.DoPrefs?)
    ensures exists token, now :: Carries(s, token, now)
  {
    assert Carries(s, s.token, s.now);
  }

  // ---- Which step made an entry -------------------------------------------

  lemma {:induction false} PlayOn(db: Db, steps: seq<Step>, p: nat)
    requires p <= |steps|
    ensures Play(Play(db, steps[..p]), steps[p..]) == Play(db, steps)
    decreases p
  {
    hide Next;
    if p == 0 {
      assert steps[..0] == [] && steps[0..] == steps;
    } else {
      assert steps[..p][1..] == steps[1..][..p - 1] && steps[p..] == steps[1..][p - 1..];
      PlayOn(Next(db, steps[0]), steps[1..], p - 1);
    }
  }


  /** Step p made the entry, under its token and at its time, of the library it found. */
  ghost predicate MadeAt(steps: seq<Step>, p: nat, token: nat, e: UndoEntry) {
    p < |steps| && Carries(steps[p], token, e.createdAt) && SnapsOf(Play(EMPTY, steps[..p]).tables, e.snaps)
  }

  ghost predicate BatchAt(steps: seq<Step>, p: nat, id: nat, snaps: seq<Snapshot>) {
    p < |steps| && steps[p].DoImport? && steps[p].id == id && SnapsOf(Play(EMPTY, steps[..p]).tables, snaps)
  }

  /** Every entry of the two logs was made by a step of the history. */
  ghost predicate LogsReached(steps: seq<Step>) {
    var db := Play(EMPTY, steps);
    && (forall k | k in db.undo :: exists p: nat :: MadeAt(steps, p, k, db.undo[k]))
    && (forall k | k in db.batches :: exists p: nat :: BatchAt(steps, p, k, db.batches[k].snaps))
  }

  lemma MadeBefore(steps: seq<Step>, s: Step, p: nat, k: nat, e: UndoEntry, snaps: seq<Snapshot>)
    ensures MadeAt(steps, p, k, e) ==> MadeAt(steps + [s], p, k, e)
    ensures BatchAt(steps, p, k, snaps) ==> BatchAt(steps + [s], p, k, snaps)
  {
    hide Play, SnapsOf, Carries;
    if p < |steps| { assert (steps + [s])[..p] == steps[..p]; }
  }

  lemma MadeLast(steps: seq<Step>, s: Step, k: nat, e: UndoEntry)
    requires Carries(s, k, e.createdAt) && SnapsOf(Play(EMPTY, steps).tables, e.snaps)
    ensures MadeAt(steps + [s], |steps|, k, e)
  {
    hide Play, SnapsOf, Carries;
    assert (steps + [s])[..|steps|] == steps;
  }

  lemma BatchLast(steps: seq<Step>, s: Step, k: nat, snaps: seq<Snapshot>)
    requires s.DoImport? && s.id == k && SnapsOf(Play(EMPTY, steps).tables, snaps)
    ensures BatchAt(steps + [s], |steps|, k, snaps)
  {
    hide Play, SnapsOf;
    assert (steps + [s])[..|steps|] == steps;
  }

  /** An entry is an old one, or made by this step. */
  lemma EntryFrom(db: Db, s: Step, k: nat)
    requires Inv(db) && k in Next(db, s).undo
    ensures var e := Next(db, s).undo[k];
            || (k in db.undo && e == db.undo[k])
            || (Carries(s, k, e.createdAt) && SnapsOf(db.tables, e.snaps))
  {
    hide Inv, Next, TakeSnapshot, SnapsOf, Named, Carries;
    if token, now :| Carries(s, token, now) {
      StepRecorded(db, s, token, now);
    } else {
      NoEntryMade(db, s, k);
    }
  }

  /** Batches stay: only their undoing shows, and only an import adds one, under an id not taken. */
  lemma BatchStays(db: Db, s: Step, k: nat)
    requires Inv(db)
    ensures var r := Next(db, s);
            && (k in db.batches ==>
                  && k in r.batches && r.batches[k].snaps == db.batches[k].snaps
                  && (r.batches[k].undone <==>
                        db.batches[k].undone || (s.DoUndoImport? && s.id == k && Attempt(db, s).Ok?)))
            && (k in r.batches && k !in db.batches ==>
                  s.DoImport? && s.id == k && !r.batches[k].undone && SnapsOf(db.tables, r.batches[k].snaps))
  {
    if s.DoUndo? || s.DoUndoImport? || s.DoStartTimer? || s.CatalogPut? || s.OtherUsers? || s.DoPrune? || s.DoPrefs? {
      hide Inv, RestoreAll, PutGame, SnapsOf, TakeSnapshot, Named;
    } else {
      hide Inv, Next, TakeSnapshot, SnapsOf, Named, Attempt;
      if s.DoImport? {
        StepRecords(db, s);
        ImportKeepsBatches(db, s);
      } else {
        StepRecorded(db, s, s.token, s.now);
      }
    }
  }

  lemma ImportKeepsBatches(db: Db, s: Step)
    requires s.DoImport?
    ensures var r := Next(db, s);
            && (forall k | k in db.batches :: k in r.batches && r.batches[k] == db.batches[k])
            && (forall k | k in r.batches && k !in db.batches :: s.id == k && !r.batches[k].undone)
  {
    hide ImportAll;
  }

  lemma {:induction false} EveryLogReached(steps: seq<Step>)
    ensures LogsReached(steps)
    decreases |steps|
  {
    hide Play, MadeAt, BatchAt, Inv, SnapsOf, Next, Carries;
    if steps == [] {
      assert Play(EMPTY, steps) == EMPTY by { NoSteps(EMPTY); }
    } else {
      var before, s := steps[..|steps| - 1], steps[|steps| - 1];
      assert before + [s] == steps;
      EveryLogReached(before);
      EmptyHolds();
      HistoryInvariant(EMPTY, before);
      PlaySnoc(EMPTY, before, s);
      var was, db := Play(EMPTY, before), Play(EMPTY, steps);
      forall k | k in db.undo ensures exists p: nat :: MadeAt(steps, p, k, db.undo[k]) {
        EntryFrom(was, s, k);
        if k in was.undo && db.undo[k] == was.undo[k] {
          var p: nat :| MadeAt(before, p, k, was.undo[k]);
          MadeBefore(before, s, p, k, db.undo[k], []);
        } else {
          MadeLast(before, s, k, db.undo[k]);
        }
      }
      forall k | k in db.batches ensures exists p: nat :: BatchAt(steps, p, k, db.batches[k].snaps) {
        BatchStays(was, s, k);
        if k in was.batches {
          var p: nat :| BatchAt(before, p, k, was.batches[k].snaps);
          MadeBefore(before, s, p, k, UndoEntry([], 0), db.batches[k].snaps);
        } else {
          BatchLast(before, s, k, db.batches[k].snaps);
        }
      }
    }
  }

  lemma NoSteps(db: Db)
    ensures Play(db, []) == db
  {
  }

  // ---- What undoing answers -----------------------------------------------

  /** r is later with every game of the snapshots back as a had it, and the other rows as later has them. */
  ghost predicate GivesBack(a: Tables, later: Tables, r: Tables, snaps: seq<Snapshot>) {
    && (forall i | 0 <= i < |snaps| :: UndoneTo(a, r, snaps[i].game))
    && (forall g | !Named(snaps, g) :: RowOf(r, g) == RowOf(later, g))
  }

  /**
   * Whatever happened, a token not older than fifteen minutes gives back the library that the step
   * which made its entry had found.
   */
  lemma LiveTokenGivesBack(steps: seq<Step>, token: nat, now: Instant) returns (p: nat)
    requires var db := Play(EMPTY, steps); token in db.undo && now - 900 <= db.undo[token].createdAt
    ensures p < |steps| && Carries(steps[p], token, Play(EMPTY, steps).undo[token].createdAt)
    ensures var db := Play(EMPTY, steps);
            var r := Undo(db, token, now);
            && r.Ok? && token !in r.value.undo
            && GivesBack(Play(EMPTY, steps[..p]).tables, db.tables, r.value.tables, db.undo[token].snaps)
  {
    hide Play, Inv, SnapsOf, Undo, UndoneTo, Named, Carries;
    EveryLogReached(steps);
    var entry := Play(EMPTY, steps).undo[token];
    p :| MadeAt(steps, p, token, entry);
    EmptyHolds();
    HistoryInvariant(EMPTY, steps[..p]);
    PlayOn(EMPTY, steps, p);
    UndoOverHistory(Play(EMPTY, steps[..p]), entry.snaps, steps[p..], token, now);
  }

  /**
   * At the end of every history an undo succeeds exactly when its token has an entry not older than
   * fifteen minutes; otherwise it answers that it is too late and nothing happens.
   */
  lemma UndoAnswers(steps: seq<Step>, token: nat, now: Instant)
    ensures var db := Play(EMPTY, steps);
            var r := Undo(db, token, now);
            && (r.Ok? <==> token in db.undo && now - 900 <= db.undo[token].createdAt)
            && (r.Err? ==> r == Err(UndoExpired) && Next(db, DoUndo(token, now)) == db)
            && (r.Ok? ==> r.value.undo == db.undo - {token} && r.value.batches == db.batches
                          && r.value.timer == db.timer)
  {
    var db := Play(EMPTY, steps);
    if token in db.undo && now - 900 <= db.undo[token].createdAt {
      var p := LiveTokenGivesBack(steps, token, now);
    }
    hide Play, RestoreAll, GivesBack, Carries;
  }

  /** A step's entry works until fifteen minutes later, whatever else happens by then short of that undo itself. */
  lemma UndoWorksInTime(before: seq<Step>, s: Step, later: seq<Step>, token: nat, at: Instant, now: Instant)
    requires Carries(s, token, at) && now <= at + 900
    requires forall x | x in later ::
               (Clock(x).Some? ==> Clock(x).value <= at + 900) && (x.DoUndo? ==> x.token != token)
    requires var was := Play(EMPTY, before);
             exists g :: TakeSnapshot(Next(was, s).tables, g) != TakeSnapshot(was.tables, g)
    ensures var was := Play(EMPTY, before);
            var made := Next(was, s);
            var db := Play(made, later);
            && token in made.undo && made.undo[token].createdAt == at
            && (forall g | TakeSnapshot(made.tables, g) != TakeSnapshot(was.tables, g) ::
                  Named(made.undo[token].snaps, g))
            && Undo(db, token, now).Ok?
            && GivesBack(was.tables, db.tables, Undo(db, token, now).value.tables, made.undo[token].snaps)
  {
    hide Play, Next, Inv, SnapsOf, TakeSnapshot, Undo, UndoneTo, Named, Carries, Clock;
    var was := Play(EMPTY, before);
    EmptyHolds();
    HistoryInvariant(EMPTY, before);
    StepRecorded(was, s, token, at);
    var made := Next(was, s);
    StepInvariant(was, s);
    EntryOutlives(made, later, token);
    PlayFirst(was, s, later);
    UndoOverHistory(was, made.undo[token].snaps, [s] + later, token, now);
  }

  lemma {:induction false} EntryOutlives(db: Db, later: seq<Step>, token: nat)
    requires Inv(db) && token in db.undo
    requires forall x | x in later ::
               && (Clock(x).Some? ==> Clock(x).value <= db.undo[token].createdAt + 900)
               && (x.DoUndo? ==> x.token != token)
    ensures token in Play(db, later).undo && Play(db, later).undo[token] == db.undo[token]
    decreases later
  {
    hide Inv, Next, Clock, Proceeds;
    if later != [] {
      assert later[0] in later;
      EntryStays(db, later[0], token);
      StepInvariant(db, later[0]);
      EntryOutlives(Next(db, later[0]), later[1..], token);
    }
  }

  lemma PlayFirst(db: Db, s: Step, later: seq<Step>)
    ensures Play(db, [s] + later) == Play(Next(db, s), later)
  {
    hide Next;
    assert ([s] + later)[1..] == later;
  }

  // ---- Import batches -----------------------------------------------------

  /** A committed import records, under its id, every game it changed, as it was. */
  lemma ImportRecorded(db: Db, es: seq<ImportEntry>, id: nat, now: Instant, g: GameId)
    requires Inv(db) && RunImport(db, es, id, now).Ok?
    requires TakeSnapshot(RunImport(db, es, id, now).value.tables, g) != TakeSnapshot(db.tables, g)
    ensures var r := RunImport(db, es, id, now).value;
            && id !in db.batches && id in r.batches && !r.batches[id].undone
            && SnapsOf(db.tables, r.batches[id].snaps) && Named(r.batches[id].snaps, g)
  {
    hide Sound, AllLinked, LogsGood, Touched, ImportAll, SnapsOf, TakeSnapshot;
    ImportTouches(db.tables, es, now);
    var b := ImportAll(db.tables, es, now).value;
    TouchedSnapshots(db.tables, b.tables, b.snaps);
  }

  /** An import batch not undone yet gives back, however old it is, the library its import had found. */
  lemma BatchGivesBack(steps: seq<Step>, id: nat, now: Instant) returns (p: nat)
    requires var db := Play(EMPTY, steps); id in db.batches && !db.batches[id].undone
    ensures p < |steps| && steps[p].DoImport? && steps[p].id == id
    ensures var db := Play(EMPTY, steps);
            var r := UndoImport(db, id, now);
            && r.Ok? && id in r.value.batches && r.value.batches[id].undone
            && GivesBack(Play(EMPTY, steps[..p]).tables, db.tables, r.value.tables, db.batches[id].snaps)
  {
    hide Play, Inv, SnapsOf, RestoreAll, UndoneTo, Named, Sound, Evolves;
    EveryLogReached(steps);
    var snaps := Play(EMPTY, steps).batches[id].snaps;
    p :| BatchAt(steps, p, id, snaps);
    EmptyHolds();
    HistoryInvariant(EMPTY, steps[..p]);
    PlayOn(EMPTY, steps, p);
    var db := Play(EMPTY, steps[..p]);
    HistoryInvariant(db, steps[p..]);
    SyncFacts(db, Play(EMPTY, steps));
    UndoRestoresAll(db.tables, Play(EMPTY, steps).tables, snaps, now);
  }

  /** At the end of every history a batch can be undone exactly when there is one and it was not undone yet. */
  lemma BatchUndoAnswers(steps: seq<Step>, id: nat, now: Instant)
    ensures var db := Play(EMPTY, steps);
            var r := UndoImport(db, id, now);
            && (r.Ok? <==> id in db.batches && !db.batches[id].undone)
            && (r.Err? ==> r == Err(NotFound) && Next(db, DoUndoImport(id, now)) == db)
            && (r.Ok? ==>
                  && r.value.batches == db.batches[id := BatchEntry(db.batches[id].snaps, true)]
                  && r.value.undo == db.undo && r.value.timer == db.timer)
  {
    var db := Play(EMPTY, steps);
    if id in db.batches && !db.batches[id].undone {
      var p := BatchGivesBack(steps, id, now);
    }
    hide Play, RestoreAll, GivesBack;
  }
}
