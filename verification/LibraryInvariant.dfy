// What holds over every history of a library: soundness, the covered ledger,
// restorable logs, at most one open run, and clients that stay in sync.
module LibraryInvariant {
  import opened Prelude
  import opened LibraryTypes
  import opened LibraryTables
  import opened LibraryLedger
  import opened LibraryWrites
  import opened LibraryUndo
  import opened LibraryImport
  import opened LibrarySync
  import opened LibraryHistory
  import Text

  // ---- Snapshots in the logs ----------------------------------------------

  ghost predicate SnapLinked(s: Snapshot) {
    s.row.Some? && s.row.value.current.Some? ==> HasRun(s.runs, s.row.value.current.value)
  }

  ghost predicate SnapInOrder(s: Snapshot) {
    s.row.Some? ==> forall i | 0 <= i < |s.runs| ::
        s.runs[i].finishedOn.Some? || s.row.value.current == Some(s.runs[i].id)
  }

  ghost predicate SnapsGood(t: Tables, snaps: seq<Snapshot>) {
    forall i | 0 <= i < |snaps| :: Restorable(t, snaps[i]) && SnapLinked(snaps[i])
  }

  ghost predicate SnapsInOrder(snaps: seq<Snapshot>) {
    forall i | 0 <= i < |snaps| :: SnapInOrder(snaps[i])
  }

  ghost predicate LogsGood(db: Db) {
    && (forall k | k in db.undo :: SnapsGood(db.tables, db.undo[k].snaps))
    && (forall k | k in db.batches :: SnapsGood(db.tables, db.batches[k].snaps))
  }

  ghost predicate LogsInOrder(db: Db) {
    && (forall k | k in db.undo :: SnapsInOrder(db.undo[k].snaps))
    && (forall k | k in db.batches :: SnapsInOrder(db.batches[k].snaps))
  }

  ghost predicate Inv(db: Db) {
    Sound(db.tables) && AllLinked(db.tables) && LogsGood(db)
  }

  /** At most one open run per game, in the tables and in every snapshot undo may bring back. */
  ghost predicate OrderInv(db: Db) {
    AllInOrder(db.tables) && LogsInOrder(db)
  }

  /** Later tables: as Advances, without the order of the runs. */
  ghost predicate Proceeds(a: Tables, b: Tables) {
    && Sound(b) && Evolves(a, b) && (Covered(a) ==> Covered(b)) && (AllLinked(a) ==> AllLinked(b))
  }

  lemma ProceedsTransitive(a: Tables, b: Tables, c: Tables)
    requires Proceeds(a, b) && Proceeds(b, c)
    ensures Proceeds(a, c)
  {
    hide Sound, Evolves, Covered, AllLinked;
    EvolvesTransitive(a, b, c);
  }

  lemma ProceedsReflexive(t: Tables)
    requires Sound(t)
    ensures Proceeds(t, t)
  {
    AdvancesReflexive(t);
    hide Sound, Evolves, Covered, AllLinked;
  }

  lemma MovesProceeds(a: Tables, b: Tables, g: GameId)
    requires Moves(a, b, g) && (AllLinked(a) ==> RunsLinked(b, g))
    ensures Proceeds(a, b)
    ensures KeepsOrder(a, b, g) && AllInOrder(a) ==> AllInOrder(b)
  {
    hide Sound, Evolves, Covered, AllInOrder, AllLinked, OnlyItem, Linked, InOrder, KeepsOrder, RunsLinked;
    InOrderElsewhere(a, b, g);
  }

  lemma SnapsGoodLater(a: Tables, b: Tables, snaps: seq<Snapshot>)
    requires SnapsGood(a, snaps) && Evolves(a, b)
    ensures SnapsGood(b, snaps)
  {
    hide Restorable, Evolves;
    forall i | 0 <= i < |snaps| ensures Restorable(b, snaps[i]) { RestorableLater(a, b, snaps[i]); }
  }

  /** Snapshots of games as a holds them, each game once. */
  ghost predicate SnapsOf(a: Tables, snaps: seq<Snapshot>) {
    && (forall i | 0 <= i < |snaps| :: snaps[i] == TakeSnapshot(a, snaps[i].game))
    && (forall i, j | 0 <= i < j < |snaps| :: snaps[i].game != snaps[j].game)
  }

  lemma SnapshotLinked(t: Tables, g: GameId)
    requires Sound(t) && AllLinked(t)
    ensures SnapLinked(TakeSnapshot(t, g))
    ensures AllInOrder(t) ==> SnapInOrder(TakeSnapshot(t, g))
  {
    if g in t.items {
      assert Linked(t, g);
      SnapshotHolds(t, g);
      hide Sound, TakeRuns, TakeSessions, Ascending, AscendingRuns, AscendingSessions;
    }
  }

  lemma SnapsOfGood(a: Tables, snaps: seq<Snapshot>)
    requires Sound(a) && AllLinked(a) && SnapsOf(a, snaps)
    ensures SnapsGood(a, snaps) && (AllInOrder(a) ==> SnapsInOrder(snaps))
  {
    hide Sound, AllLinked, AllInOrder, Restorable, TakeSnapshot, SnapLinked, SnapInOrder;
    forall i | 0 <= i < |snaps|
      ensures Restorable(a, snaps[i]) && SnapLinked(snaps[i]) && (AllInOrder(a) ==> SnapInOrder(snaps[i]))
    {
      SnapshotRestorable(a, snaps[i].game);
      SnapshotLinked(a, snaps[i].game);
    }
  }

  /** Committing later tables and snapshots of the earlier ones keeps the invariants. */
  lemma SaveUndoKeeps(db: Db, t: Tables, snaps: seq<Snapshot>, token: nat, now: Instant)
    requires Inv(db) && Proceeds(db.tables, t) && SnapsOf(db.tables, snaps) && SaveUndo(db, t, snaps, token, now).Ok?
    ensures var r := SaveUndo(db, t, snaps, token, now).value;
            && Inv(r) && r.tables == t && r.batches == db.batches && r.timer == db.timer
            && (OrderInv(db) && AllInOrder(t) ==> OrderInv(r))
  {
    hide Sound, Evolves, Covered, AllLinked, AllInOrder, SnapsGood, SnapsInOrder, SnapsOf;
    SnapsOfGood(db.tables, snaps);
    LogsLater(db, t);
    SnapsGoodLater(db.tables, t, snaps);
  }

  lemma LogsLater(db: Db, t: Tables)
    requires LogsGood(db) && Evolves(db.tables, t)
    ensures LogsGood(db.(tables := t))
  {
    hide Evolves, SnapsGood;
    forall k | k in db.undo ensures SnapsGood(t, db.undo[k].snaps) { SnapsGoodLater(db.tables, t, db.undo[k].snaps); }
    forall k | k in db.batches
      ensures SnapsGood(t, db.batches[k].snaps) { SnapsGoodLater(db.tables, t, db.batches[k].snaps); }
  }

  // ---- Undo ---------------------------------------------------------------

  lemma RestoredKeeps(r: Tables, s: Snapshot)
    requires Restored(r, s) && Sound(r)
    ensures SnapLinked(s) ==> RunsLinked(r, s.game)
    ensures SnapInOrder(s) ==> InOrder(r, s.game)
  {
    if s.row.None? {
      forall id | id in r.runs ensures r.runs[id].game != s.game { RunIsSound(r, id); }
    }
    hide Sound, Clamp, Minutes, MinutesOn;
  }

  lemma RestoreItemProceeds(t: Tables, s: Snapshot, now: Instant)
    requires Sound(t) && Restorable(t, s) && SnapLinked(s)
    ensures RestoreItem(t, s, now).Ok? && Proceeds(t, RestoreItem(t, s, now).value)
    ensures Moves(t, RestoreItem(t, s, now).value, s.game) && Restored(RestoreItem(t, s, now).value, s)
    ensures AllInOrder(t) && SnapInOrder(s) ==> AllInOrder(RestoreItem(t, s, now).value)
  {
    hide Sound, Evolves, Moves, RestoreItem, Restorable, Restored, AllInOrder, AllLinked, SnapLinked, SnapInOrder,
         InOrder, Linked;
    RestoreItemWorks(t, s, now);
    var r := RestoreItem(t, s, now).value;
    MovedKeeps(t, r, s.game);
    RestoredKeeps(r, s);
    MovesProceeds(t, r, s.game);
  }

  lemma {:induction false} RestoreAllProceeds(t: Tables, snaps: seq<Snapshot>, now: Instant)
    requires Sound(t) && SnapsGood(t, snaps)
    ensures RestoreAll(t, snaps, now).Ok? && Proceeds(t, RestoreAll(t, snaps, now).value)
    ensures AllInOrder(t) && SnapsInOrder(snaps) ==> AllInOrder(RestoreAll(t, snaps, now).value)
    decreases snaps
  {
    hide Sound, Evolves, Moves, Covered, RestoreItem, Restorable, Restored, AllInOrder, AllLinked, SnapLinked,
         SnapInOrder;
    ProceedsReflexive(t);
    if snaps != [] {
      RestoreItemProceeds(t, snaps[0], now);
      var t1 := RestoreItem(t, snaps[0], now).value;
      forall i | 0 <= i < |snaps[1..]|
        ensures Restorable(t, snaps[1..][i]) && SnapLinked(snaps[1..][i]) { assert snaps[1..][i] == snaps[i + 1]; }
      SnapsGoodLater(t, t1, snaps[1..]);
      RestoreAllProceeds(t1, snaps[1..], now);
      ProceedsTransitive(t, t1, RestoreAll(t1, snaps[1..], now).value);
      if SnapsInOrder(snaps) {
        forall i | 0 <= i < |snaps[1..]| ensures SnapInOrder(snaps[1..][i]) { assert snaps[1..][i] == snaps[i + 1]; }
      }
    }
  }

  /** What every step does; OrderKept says whether it also keeps the runs in order. */
  ghost predicate StepKeeps(db: Db, r: Db) {
    Inv(r) && Proceeds(db.tables, r.tables)
  }

  lemma UndoKeeps(db: Db, token: nat, now: Instant)
    requires Inv(db) && Undo(db, token, now).Ok?
    ensures StepKeeps(db, Undo(db, token, now).value)
    ensures OrderInv(db) ==> OrderInv(Undo(db, token, now).value)
  {
    hide Sound, Evolves, Covered, AllLinked, AllInOrder, SnapsGood, SnapsInOrder, RestoreAll;
    RestoreAllProceeds(db.tables, db.undo[token].snaps, now);
    LogsLater(db, RestoreAll(db.tables, db.undo[token].snaps, now).value);
  }

  lemma UndoImportKeeps(db: Db, id: nat, now: Instant)
    requires Inv(db) && UndoImport(db, id, now).Ok?
    ensures StepKeeps(db, UndoImport(db, id, now).value)
    ensures OrderInv(db) ==> OrderInv(UndoImport(db, id, now).value)
  {
    hide Sound, Evolves, Covered, AllLinked, AllInOrder, SnapsGood, SnapsInOrder, RestoreAll;
    RestoreAllProceeds(db.tables, db.batches[id].snaps, now);
    LogsLater(db, RestoreAll(db.tables, db.batches[id].snaps, now).value);
  }

  // ---- One game's statements ----------------------------------------------

  lemma OneSnapshot(t: Tables, g: GameId)
    ensures SnapsOf(t, [TakeSnapshot(t, g)])
  {
  }

  /** Committing a change of one game. */
  lemma CommitOne(db: Db, t: Tables, g: GameId, token: nat, now: Instant)
    requires Inv(db) && Moves(db.tables, t, g) && RunsLinked(t, g)
    requires SaveUndo(db, t, [TakeSnapshot(db.tables, g)], token, now).Ok?
    ensures var r := SaveUndo(db, t, [TakeSnapshot(db.tables, g)], token, now).value;
            StepKeeps(db, r) && r.tables == t && (OrderInv(db) && KeepsOrder(db.tables, t, g) ==> OrderInv(r))
  {
    hide Sound, Evolves, Covered, AllLinked, AllInOrder, Moves, SaveUndo, SnapsOf, KeepsOrder, RunsLinked, LogsGood,
         LogsInOrder, TakeSnapshot;
    MovesProceeds(db.tables, t, g);
    OneSnapshot(db.tables, g);
    SaveUndoKeeps(db, t, [TakeSnapshot(db.tables, g)], token, now);
  }

  lemma WriteKeeps(db: Db, g: GameId, ch: Change, mode: Mode, token: nat, now: Instant)
    requires Inv(db) && Write(db, g, ch, mode, token, now).Ok?
    ensures StepKeeps(db, Write(db, g, ch, mode, token, now).value)
    ensures OrderInv(db) ==> OrderInv(Write(db, g, ch, mode, token, now).value)
  {
    hide Sound, StepKeeps, OrderInv, ApplyChange, SaveUndo, LogsGood, Moves, KeepsOrder, Linked;
    LinkedAt(db.tables, g);
    ApplyChangeMoves(db.tables, g, ch, mode, now);
    hide Inv;
    CommitOne(db, ApplyChange(db.tables, g, ch, mode, now).value, g, token, now);
    ApplyKeepsOrder(db.tables, g, ch, mode, now);
  }

  lemma ApplyKeepsOrder(t: Tables, g: GameId, ch: Change, mode: Mode, now: Instant)
    requires Sound(t) && RunsLinked(t, g) && ApplyChange(t, g, ch, mode, now).Ok?
    ensures KeepsOrder(t, ApplyChange(t, g, ch, mode, now).value, g)
  {
    hide Sound, Moves, ApplyChange, KeepsOrder;
    ApplyChangeMoves(t, g, ch, mode, now);
  }

  lemma InsertSessionOnlyMinutes(t: Tables, s: Session, now: Instant)
    requires Sound(t) && InsertSession(t, t.sessSeq + 1, s, now).Ok?
    requires s.run.Some? && s.run.value in t.runs ==> t.runs[s.run.value].game == s.game
    ensures s.game in t.items && OnlyMinutes(t, InsertSession(t, t.sessSeq + 1, s, now).value, s.game)
  {
    hide Sound, Moves;
    FreshSessionId(t);
    InsertSessionMoves(t, t.sessSeq + 1, s, now);
    InsertSessionMinutes(t, t.sessSeq + 1, s, now);
    InsertSessionRow(t, t.sessSeq + 1, s, now);
    hide InsertSession;
  }

  /** A session statement only moves minutes: the runs keep their dates and order. */
  lemma CommitMinutes(db: Db, t: Tables, g: GameId, token: nat, now: Instant)
    requires Inv(db) && g in db.tables.items && OnlyMinutes(db.tables, t, g)
    requires SaveUndo(db, t, [TakeSnapshot(db.tables, g)], token, now).Ok?
    ensures var r := SaveUndo(db, t, [TakeSnapshot(db.tables, g)], token, now).value;
            StepKeeps(db, r) && r.tables == t && (OrderInv(db) ==> OrderInv(r))
  {
    hide Sound, Moves, SaveUndo, LogsGood, StepKeeps, OrderInv, Linked, KeepsOrder, TakeSnapshot;
    LinkedAt(db.tables, g);
    OnlyMinutesKeepsOpen(db.tables, t, g);
    OnlyMinutesMoves(db.tables, t, g);
    CommitOne(db, t, g, token, now);
  }

  lemma LogOnCurrentKeeps(db: Db, g: GameId, day: Day, minutes: int, source: Source, token: nat, now: Instant)
    requires Inv(db) && LogOnCurrent(db, g, day, minutes, source, token, now).Ok?
    ensures StepKeeps(db, LogOnCurrent(db, g, day, minutes, source, token, now).value)
    ensures OrderInv(db) ==> OrderInv(LogOnCurrent(db, g, day, minutes, source, token, now).value)
  {
    hide Sound, InsertSession, SaveUndo, LogsGood, StepKeeps, OrderInv, OnlyMinutes, TakeSnapshot;
    var s := Session(g, db.tables.items[g].current, day, minutes, "", source, now);
    LinkedAt(db.tables, g);
    InsertSessionOnlyMinutes(db.tables, s, now);
    CommitMinutes(db, InsertSession(db.tables, db.tables.sessSeq + 1, s, now).value, g, token, now);
  }

  lemma RemoveSessionKeeps(db: Db, id: nat, token: nat, now: Instant)
    requires Inv(db) && RemoveSession(db, id, token, now).Ok?
    ensures StepKeeps(db, RemoveSession(db, id, token, now).value)
    ensures OrderInv(db) ==> OrderInv(RemoveSession(db, id, token, now).value)
  {
    hide Sound, DeleteSession, SaveUndo, LogsGood, StepKeeps, OrderInv, OnlyMinutes, TakeSnapshot;
    DeleteOnlyMinutes(db.tables, id);
    CommitMinutes(db, DeleteSession(db.tables, id), db.tables.sessions[id].game, token, now);
  }

  lemma EditSessionKeeps(db: Db, id: nat, e: SessionEdit, token: nat, now: Instant)
    requires Inv(db) && EditSession(db, id, e, token, now).Ok?
    ensures StepKeeps(db, EditSession(db, id, e, token, now).value)
    ensures OrderInv(db) ==> OrderInv(EditSession(db, id, e, token, now).value)
  {
    hide Sound, UpdateSession, SaveUndo, LogsGood, StepKeeps, OrderInv, OnlyMinutes, TakeSnapshot, Text.Trim;
    var s := db.tables.sessions[id];
    var day := if e.playedOn.Some? then e.playedOn.value.day else s.playedOn;
    var minutes := if e.minutes.Some? then e.minutes.value else s.minutes;
    var note := if e.note.Some? then Text.Trim(e.note.value) else s.note;
    UpdateOnlyMinutes(db.tables, id, day, minutes, note);
    CommitMinutes(db, UpdateSession(db.tables, id, day, minutes, note).value, s.game, token, now);
  }

  // ---- Playthrough edits --------------------------------------------------

  lemma {:induction false} DeleteSessionsOnlyMinutes(t: Tables, ids: seq<nat>, g: GameId)
    requires Sound(t) && g in t.items
    requires forall id | id in ids :: id in t.sessions ==> t.sessions[id].game == g
    ensures OnlyMinutes(t, DeleteSessions(t, ids), g)
    decreases ids
  {
    hide Sound, Moves, DeleteSession, OnlyMinutes;
    NothingOnlyMinutes(t, g);
    if ids != [] {
      var t1 := DeleteSession(t, ids[0]);
      assert ids[0] in ids;
      DeletedSession(t, ids[0]);
      if ids[0] in t.sessions { DeleteOnlyMinutes(t, ids[0]); }
      OnlyMinutesMoves(t, t1, g);
      MovedKeeps(t, t1, g);
      forall id | id in ids[1..] ensures id in t1.sessions ==> t1.sessions[id].game == g { assert id in ids; }
      DeleteSessionsOnlyMinutes(t1, ids[1..], g);
      OnlyMinutesTransitive(t, t1, DeleteSessions(t1, ids[1..]), g);
    }
  }

  lemma DeletedSession(t: Tables, id: nat)
    ensures DeleteSession(t, id).sessions == t.sessions - {id}
    ensures id !in t.sessions ==> DeleteSession(t, id) == t
  {
    if id in t.sessions {
      var s := t.sessions[id];
      AddItemMinutesKeepsJournal(DropSession(t, id), s.game, -s.minutes);
      AddRunMinutesOnly(AddItemMinutes(DropSession(t, id), s.game, -s.minutes), s.run, -s.minutes);
      hide AddItemMinutes, AddRunMinutes;
    }
  }

  lemma NothingOnlyMinutes(t: Tables, g: GameId)
    requires Sound(t) && g in t.items
    ensures OnlyMinutes(t, t, g)
  {
    hide Sound, Moves;
    MovesReflexive(t, g);
  }

  /** Deleting a run: the others, and the item, only lose minutes. */
  lemma DeleteRunLeaves(t: Tables, id: nat)
    requires Sound(t) && id in t.runs
    ensures var g := t.runs[id].game;
            var t1 := DeleteRun(t, id);
            && g in t.items && g in t1.items && t1.items[g].current == t.items[g].current
            && t1.runs.Keys == t.runs.Keys - {id}
            && (forall k | k in t1.runs :: t1.runs[k] == t.runs[k].(minutes := t1.runs[k].minutes))
  {
    hide Sound, Moves, DeleteSessions, Ascending;
    RunIsSound(t, id);
    var g := t.runs[id].game;
    var ids := Ascending(SessionsOfRun(t, id));
    AscendingLists(SessionsOfRun(t, id));
    forall k | k in ids ensures k in t.sessions && t.sessions[k].run == Some(id)
                                && t.sessions[k].game == g { SessionIsSound(t, k); }
    CascadeCommutes(t, id, ids);
    DeleteSessionsOnlyMinutes(t, ids, g);
  }

  lemma ClearCurrentMoves(t: Tables, g: GameId, id: nat)
    requires Sound(t)
    ensures var t1 := ClearCurrent(t, g, id);
            && Moves(t, t1, g) && t1.runs == t.runs && t1.items.Keys == t.items.Keys
            && (g in t.items ==>
                  t1.items[g].current == if t.items[g].current == Some(id) then None else t.items[g].current)
  {
    hide Sound, Moves, Text.Tidy;
    MovesReflexive(t, g);
    if g in t.items && t.items[g].current == Some(id) {
      ItemIsSound(t, g);
      UpdateItemMoves(t, g, t.items[g].(current := None));
    }
  }

  lemma DeletePlaythroughKeeps(db: Db, id: nat, token: nat, now: Instant)
    requires Inv(db) && DeletePlaythrough(db, id, token, now).Ok?
    ensures StepKeeps(db, DeletePlaythrough(db, id, token, now).value)
    ensures OrderInv(db) ==> OrderInv(DeletePlaythrough(db, id, token, now).value)
  {
    hide Sound, Moves, DeleteRun, ClearCurrent, SaveUndo, LogsGood, StepKeeps, OrderInv, TakeSnapshot;
    var t := db.tables;
    var g := t.runs[id].game;
    var t1 := DeleteRun(t, id);
    DeleteRunMoves(t, id);
    DeleteRunLeaves(t, id);
    MovedKeeps(t, t1, g);
    ClearCurrentMoves(t1, g, id);
    var t2 := ClearCurrent(t1, g, id);
    MovesTransitive(t, t1, t2, g);
    LinkedAt(t, g);
    assert KeepsOrder(t, t2, g) by {
      forall k | InOrder(t, g) && k in t2.runs && t2.runs[k].game == g && !IsCurrent(t2, k)
        ensures t2.runs[k].finishedOn.Some? {
        assert !IsCurrent(t, k);
      }
    }
    hide KeepsOrder;
    CommitOne(db, t2, g, token, now);
  }

  /** UpdatePlaythrough clears the end of a run that is not the current one. */
  predicate Reopens(t: Tables, id: nat, e: RunEdit) {
    e.finishedOn == Some(NoDay) && !IsCurrent(t, id)
  }

  lemma EditedMoves(t: Tables, id: nat, e: RunEdit)
    requires Sound(t) && AllLinked(t) && id in t.runs && RunEditError(e).None?
    ensures var g := t.runs[id].game;
            var t1 := UpdateItem(UpdateRun(t, id, EditedRun(t.runs[id], e)), g, t.items[g]);
            && g in t.items && Moves(t, t1, g) && RunsLinked(t1, g)
            && t1.runs == t.runs[id := EditedRun(t.runs[id], e)]
            && g in t1.items && t1.items[g].current == t.items[g].current
  {
    hide Sound, Moves, Text.Tidy;
    RunIsSound(t, id);
    var g := t.runs[id].game;
    LinkedAt(t, g);
    EditRunMoves(t, id, EditedRun(t.runs[id], e));
    var t0 := UpdateRun(t, id, EditedRun(t.runs[id], e));
    MovedKeeps(t, t0, g);
    ItemIsSound(t0, g);
    UpdateItemMoves(t0, g, t.items[g]);
    MovesTransitive(t, t0, UpdateItem(t0, g, t.items[g]), g);
  }

  lemma EditPlaythroughKeeps(db: Db, id: nat, e: RunEdit, token: nat, now: Instant)
    requires Inv(db) && EditPlaythrough(db, id, e, token, now).Ok?
    ensures StepKeeps(db, EditPlaythrough(db, id, e, token, now).value)
    ensures OrderInv(db) ==> (OrderInv(EditPlaythrough(db, id, e, token, now).value) <==> !Reopens(db.tables, id, e))
  {
    hide Sound, Moves, SaveUndo, LogsGood, StepKeeps, LogsInOrder, TakeSnapshot, UpdateItem, UpdateRun, Text.Trim;
    var t := db.tables;
    var g := t.runs[id].game;
    RunIsSound(t, id);
    EditedMoves(t, id, e);
    LinkedAt(t, g);
    MovesReflexive(t, g);
    var t1 := if e == NO_RUN_EDIT then t else UpdateItem(UpdateRun(t, id, EditedRun(t.runs[id], e)), g, t.items[g]);
    if !Reopens(t, id, e) {
      assert KeepsOrder(t, t1, g) by {
        forall k | InOrder(t, g) && k in t1.runs && t1.runs[k].game == g && !IsCurrent(t1, k)
          ensures t1.runs[k].finishedOn.Some? {
          assert !IsCurrent(t, k);
        }
      }
    } else {
      assert t1.runs[id].finishedOn.None? && !IsCurrent(t1, id);
    }
    hide KeepsOrder, IsCurrent;
    CommitOne(db, t1, g, token, now);
  }

  // ---- Several games in one transaction -----------------------------------

  predicate Named(snaps: seq<Snapshot>, g: GameId) {
    exists i :: 0 <= i < |snaps| && snaps[i].game == g
  }

  /** t is a with the snapshotted games changed and no others. */
  ghost predicate Touched(a: Tables, t: Tables, snaps: seq<Snapshot>) {
    && Proceeds(a, t) && (AllInOrder(a) ==> AllInOrder(t)) && SnapsOf(a, snaps)
    && (forall g | !Named(snaps, g) :: TakeSnapshot(t, g) == TakeSnapshot(a, g))
  }

  lemma {:induction false} TakeSame(a: Tables, b: Tables, rs: seq<nat>, ss: seq<nat>)
    requires forall id | id in rs :: id in a.runs && id in b.runs && a.runs[id] == b.runs[id]
    requires forall id | id in ss :: id in a.sessions && id in b.sessions && a.sessions[id] == b.sessions[id]
    ensures TakeRuns(a.runs, rs) == TakeRuns(b.runs, rs)
    ensures TakeSessions(a.sessions, ss) == TakeSessions(b.sessions, ss)
    decreases |rs| + |ss|
  {
    if rs != [] {
      forall id | id in rs[1..] ensures id in rs {}
      assert rs[0] in rs;
      TakeSame(a, b, rs[1..], ss);
    } else if ss != [] {
      forall id | id in ss[1..] ensures id in ss {}
      assert ss[0] in ss;
      TakeSame(a, b, rs, ss[1..]);
    }
  }

  /** A change of game h does not show in another game's snapshot. */
  lemma SnapshotFramed(a: Tables, b: Tables, h: GameId, g: GameId)
    requires OnlyItem(a, b, h) && g != h
    ensures TakeSnapshot(a, g) == TakeSnapshot(b, g)
  {
    assert RunIds(a.runs, g) == RunIds(b.runs, g);
    assert SessionIds(a.sessions, g) == SessionIds(b.sessions, g);
    AscendingLists(RunIds(a.runs, g));
    AscendingLists(SessionIds(a.sessions, g));
    hide Ascending, TakeRuns, TakeSessions;
    TakeSame(a, b, Ascending(RunIds(a.runs, g)), Ascending(SessionIds(a.sessions, g)));
  }

  lemma TouchOne(a: Tables, t: Tables, snaps: seq<Snapshot>, t1: Tables, g: GameId)
    requires Touched(a, t, snaps) && !Named(snaps, g)
    requires Moves(t, t1, g) && KeepsOrder(t, t1, g) && (AllLinked(t) ==> RunsLinked(t1, g))
    ensures Touched(a, t1, snaps + [TakeSnapshot(t, g)])
  {
    hide Sound, Evolves, Covered, AllLinked, AllInOrder, OnlyItem, KeepsOrder, RunsLinked, TakeSnapshot, Moves,
         Proceeds;
    MovesProceeds(t, t1, g);
    ProceedsTransitive(a, t, t1);
    SnapshotGame(t, g);
    MovedOnly(t, t1, g);
    var more := snaps + [TakeSnapshot(t, g)];
    forall h | !Named(more, h) ensures TakeSnapshot(t1, h) == TakeSnapshot(a, h) {
      NamedAppend(snaps, TakeSnapshot(t, g), h);
      SnapshotFramed(t, t1, g, h);
    }
  }

  lemma NamedAppend(snaps: seq<Snapshot>, s: Snapshot, g: GameId)
    ensures Named(snaps + [s], g) <==> Named(snaps, g) || s.game == g
  {
    var more := snaps + [s];
    if Named(snaps, g) {
      var i :| 0 <= i < |snaps| && snaps[i].game == g;
      assert more[i].game == g;
    }
    if s.game == g {
      assert more[|snaps|].game == g;
    }
  }

  lemma SnapshotGame(t: Tables, g: GameId)
    ensures TakeSnapshot(t, g).game == g
  {
  }

  lemma NothingTouched(t: Tables)
    requires Sound(t)
    ensures Touched(t, t, [])
  {
    hide TakeSnapshot;
    ProceedsReflexive(t);
  }

  lemma TouchedIs(a: Tables, t: Tables, snaps: seq<Snapshot>)
    requires Touched(a, t, snaps)
    ensures Proceeds(a, t) && Sound(t) && (AllLinked(a) ==> AllLinked(t)) && SnapsOf(a, snaps)
    ensures AllInOrder(a) ==> AllInOrder(t)
  {
  }

  predicate DistinctIds(ids: seq<GameId>) {
    forall i, j | 0 <= i < j < |ids| :: ids[i] != ids[j]
  }

  ghost predicate NoneNamed(snaps: seq<Snapshot>, ids: seq<GameId>) {
    forall i | 0 <= i < |ids| :: !Named(snaps, ids[i])
  }

  lemma NamedMore(snaps: seq<Snapshot>, s: Snapshot, ids: seq<GameId>)
    requires ids != [] && DistinctIds(ids) && NoneNamed(snaps, ids) && s.game == ids[0]
    ensures NoneNamed(snaps + [s], ids[1..]) && NoneNamed(snaps, ids[1..]) && DistinctIds(ids[1..])
  {
    forall i | 0 <= i < |ids[1..]| ensures !Named(snaps + [s], ids[1..][i]) && !Named(snaps, ids[1..][i]) {
      NamedAppend(snaps, s, ids[i + 1]);
    }
  }

  lemma {:induction false} DeleteEachTouches(a: Tables, d: Deleting, ids: seq<GameId>, requireAll: bool)
    requires Touched(a, d.tables, d.snaps) && DistinctIds(ids) && NoneNamed(d.snaps, ids)
    requires DeleteEach(d, ids, requireAll).Ok?
    ensures var r := DeleteEach(d, ids, requireAll).value; Touched(a, r.tables, r.snaps)
    decreases ids
  {
    hide Sound, Touched, Moves, DeleteItem, TakeSnapshot, Named, KeepsOrder, RunsLinked;
    if ids != [] {
      var g := ids[0];
      TouchedIs(a, d.tables, d.snaps);
      SnapshotGame(d.tables, g);
      NamedMore(d.snaps, TakeSnapshot(d.tables, g), ids);
      if g in d.tables.items {
        DeleteItemMoves(d.tables, g);
        DeleteItemOrder(d.tables, g);
        TouchOne(a, d.tables, d.snaps, DeleteItem(d.tables, g), g);
        var timer := if d.timer.Some? && d.timer.value.game == g then None else d.timer;
        DeleteEachTouches(a, Deleting(DeleteItem(d.tables, g), timer, d.snaps + [TakeSnapshot(d.tables, g)]),
                          ids[1..], requireAll);
      } else {
        DeleteEachTouches(a, d, ids[1..], requireAll);
      }
    }
  }

  lemma DeleteItemOrder(t: Tables, g: GameId)
    requires Sound(t)
    ensures RunsLinked(DeleteItem(t, g), g) && KeepsOrder(t, DeleteItem(t, g), g)
  {
    if g !in t.items {
      forall id | id in t.runs ensures t.runs[id].game != g { RunIsSound(t, id); }
    }
    hide Sound;
  }

  /** Committing what several games' writes did. */
  lemma CommitTouched(db: Db, t: Tables, snaps: seq<Snapshot>, token: nat, now: Instant)
    requires Inv(db) && Touched(db.tables, t, snaps) && SaveUndo(db, t, snaps, token, now).Ok?
    ensures var r := SaveUndo(db, t, snaps, token, now).value;
            StepKeeps(db, r) && r.tables == t && (OrderInv(db) ==> OrderInv(r))
  {
    hide Sound, Evolves, Covered, AllLinked, AllInOrder, SaveUndo, SnapsOf, LogsGood, LogsInOrder, Touched;
    TouchedIs(db.tables, t, snaps);
    SaveUndoKeeps(db, t, snaps, token, now);
  }

  lemma DeleteManyKeeps(db: Db, ids: seq<GameId>, requireAll: bool, token: nat, now: Instant)
    requires Inv(db) && DistinctIds(ids) && DeleteMany(db, ids, requireAll, token, now).Ok?
    ensures StepKeeps(db, DeleteMany(db, ids, requireAll, token, now).value)
    ensures OrderInv(db) ==> OrderInv(DeleteMany(db, ids, requireAll, token, now).value)
  {
    hide Sound, Evolves, Covered, AllLinked, AllInOrder, SaveUndo, SnapsGood, SnapsInOrder, Touched, DeleteEach,
         Proceeds;
    NothingTouched(db.tables);
    DeleteEachTouches(db.tables, Deleting(db.tables, db.timer, []), ids, requireAll);
    var d := DeleteEach(Deleting(db.tables, db.timer, []), ids, requireAll).value;
    CommitTouched(db.(timer := d.timer), d.tables, d.snaps, token, now);
  }

  lemma {:induction false} DedupedDistinct(ids: seq<GameId>, seen: set<GameId>)
    ensures DistinctIds(DedupeIds(ids, seen))
    ensures forall i | 0 <= i < |DedupeIds(ids, seen)| :: DedupeIds(ids, seen)[i] !in seen
    decreases ids
  {
    if ids == [] {
    } else if ids[0] > 0 && ids[0] !in seen {
      DedupedDistinct(ids[1..], seen + {ids[0]});
    } else {
      DedupedDistinct(ids[1..], seen);
    }
  }

  lemma {:induction false} BulkEachTouches(a: Tables, b: Bulking, ids: seq<GameId>, act: BulkAction, now: Instant)
    requires Touched(a, b.tables, b.snaps) && AllLinked(a) && DistinctIds(ids) && NoneNamed(b.snaps, ids)
    requires BulkEach(b, ids, act, now).Ok?
    ensures var r := BulkEach(b, ids, act, now).value; Touched(a, r.tables, r.snaps)
    decreases ids
  {
    hide Sound, Touched, Moves, ApplyChange, TakeSnapshot, Named, KeepsOrder, RunsLinked, BulkChange, AllLinked,
         InOrder, Linked;
    if ids != [] {
      var g := ids[0];
      TouchedIs(a, b.tables, b.snaps);
      SnapshotGame(b.tables, g);
      NamedMore(b.snaps, TakeSnapshot(b.tables, g), ids);
      var ch := BulkChange(act, if g in b.tables.items then b.tables.items[g].tags else []);
      var w := ApplyChange(b.tables, g, ch, Patch, now);
      if w.Ok? {
        LinkedAt(b.tables, g);
        ApplyChangeMoves(b.tables, g, ch, Patch, now);
        LinkedRuns(w.value, g);
        TouchOne(a, b.tables, b.snaps, w.value, g);
        BulkEachTouches(a, Bulking(w.value, b.snaps + [TakeSnapshot(b.tables, g)]), ids[1..], act, now);
      } else {
        BulkEachTouches(a, b, ids[1..], act, now);
      }
    }
  }

  lemma LinkedRuns(t: Tables, g: GameId)
    requires g in t.items && Linked(t, g)
    ensures RunsLinked(t, g)
  {
  }

  lemma BulkKeeps(db: Db, a: BulkAction, token: nat, now: Instant)
    requires Inv(db) && Bulk(db, a, token, now).Ok?
    ensures StepKeeps(db, Bulk(db, a, token, now).value)
    ensures OrderInv(db) ==> OrderInv(Bulk(db, a, token, now).value)
  {
    hide Sound, StepKeeps, OrderInv, AllLinked, LogsGood, SaveUndo, Touched, DeleteMany, BulkEach, DedupeIds;
    var ids := DedupeIds(a.games, {});
    DedupedDistinct(a.games, {});
    if a.remove {
      DeleteManyKeeps(db, ids, false, token, now);
    } else {
      NothingTouched(db.tables);
      BulkEachTouches(db.tables, Bulking(db.tables, []), ids, a, now);
      var b := BulkEach(Bulking(db.tables, []), ids, a, now).value;
      CommitTouched(db, b.tables, b.snaps, token, now);
    }
  }

  lemma {:induction false} ImportEachTouches(a: Tables, b: Batch, hs: seq<ImportEntry>, now: Instant)
    requires Touched(a, b.tables, b.snaps) && AllLinked(a) && DistinctGames(hs)
    requires forall i | 0 <= i < |hs| :: !Named(b.snaps, hs[i].game)
    requires ImportEach(b, hs, now).Ok?
    ensures var r := ImportEach(b, hs, now).value; Touched(a, r.tables, r.snaps)
    decreases hs
  {
    hide Sound, Touched, Moves, ImportOne, TakeSnapshot, Named, KeepsOrder, RunsLinked, AllLinked, Filled, Added;
    if hs != [] {
      var o := ImportOne(b.tables, hs[0], now).value;
      TouchedIs(a, b.tables, b.snaps);
      LinkedAt(b.tables, hs[0].game);
      ImportOneMoves(b.tables, hs[0], now);
      SnapshotGame(b.tables, hs[0].game);
      forall i | 0 <= i < |hs[1..]|
        ensures !Named(b.snaps, hs[1..][i].game)
                && !Named(b.snaps + [TakeSnapshot(b.tables, hs[0].game)], hs[1..][i].game)
      {
        assert hs[1..][i] == hs[i + 1];
        NamedAppend(b.snaps, TakeSnapshot(b.tables, hs[0].game), hs[i + 1].game);
      }
      if o.snap.Some? { TouchOne(a, b.tables, b.snaps, o.tables, hs[0].game); }
      ImportEachTouches(a, Counted(b, o), hs[1..], now);
    }
  }

  lemma ImportTouches(t: Tables, es: seq<ImportEntry>, now: Instant)
    requires Sound(t) && AllLinked(t) && ImportAll(t, es, now).Ok?
    ensures Touched(t, ImportAll(t, es, now).value.tables, ImportAll(t, es, now).value.snaps)
  {
    hide Sound, AllLinked, Touched, ImportEach;
    NothingTouched(t);
    HeadsDistinct(es, {});
    ImportEachTouches(t, Batch(t, [], 0, 0, 0), Heads(es, {}), now);
  }

  lemma ImportKeeps(db: Db, es: seq<ImportEntry>, id: nat, now: Instant)
    requires Inv(db) && RunImport(db, es, id, now).Ok?
    ensures StepKeeps(db, RunImport(db, es, id, now).value)
    ensures OrderInv(db) ==> OrderInv(RunImport(db, es, id, now).value)
  {
    hide Sound, Evolves, Covered, AllLinked, AllInOrder, SnapsGood, SnapsInOrder, SnapsOf, Touched, ImportAll;
    ImportTouches(db.tables, es, now);
    var b := ImportAll(db.tables, es, now).value;
    TouchedIs(db.tables, b.tables, b.snaps);
    SnapsOfGood(db.tables, b.snaps);
    LogsLater(db, b.tables);
    SnapsGoodLater(db.tables, b.tables, b.snaps);
  }

  // ---- Any step -----------------------------------------------------------

  /** A step that reopens an old run: a committed playthrough edit that clears its end. */
  ghost predicate Reopening(db: Db, s: Step) {
    s.DoEditPlaythrough? && Attempt(db, s).Ok? && Reopens(db.tables, s.id, s.runEdit)
  }

  lemma SameTablesKeeps(db: Db, r: Db)
    requires Inv(db) && r.tables == db.tables && r.batches == db.batches
    requires r.undo.Keys <= db.undo.Keys && forall k | k in r.undo :: r.undo[k] == db.undo[k]
    ensures StepKeeps(db, r) && (OrderInv(db) ==> OrderInv(r))
  {
    hide Sound, Evolves, Covered, AllLinked, AllInOrder, SnapsGood, SnapsInOrder, Proceeds;
    ProceedsReflexive(db.tables);
  }

  lemma StartTimerKeeps(db: Db, g: GameId, now: Instant)
    requires Inv(db) && StartTimer(db, g, now).Ok?
    ensures var r := StartTimer(db, g, now).value; StepKeeps(db, r) && (OrderInv(db) ==> OrderInv(r))
  {
    hide Sound, LogsGood, LogsInOrder;
    ItemIsSound(db.tables, g);
    assert StartTimer(db, g, now).value.tables == db.tables;
    SameTablesKeeps(db, StartTimer(db, g, now).value);
  }

  lemma StopTimerKeeps(db: Db, log: bool, minutes: int, playedOn: DayText, token: nat, now: Instant)
    requires Inv(db)
    ensures var r := StopTimer(db, log, minutes, playedOn, token, now).0;
            StepKeeps(db, r) && (OrderInv(db) ==> OrderInv(r))
  {
    hide Sound, AllLinked, AllInOrder, Proceeds, LogOnCurrent, TimerMinutes;
    var stopped := db.(timer := None);
    SameTablesKeeps(db, db);
    SameTablesKeeps(db, stopped);
    if db.timer.Some? && log {
      var m := TimerMinutes(minutes, db.timer.value.startedAt, now);
      if LogOnCurrent(stopped, db.timer.value.game, Today(playedOn, now), m, Timer, token, now).Ok? {
        LogOnCurrentKeeps(stopped, db.timer.value.game, Today(playedOn, now), m, Timer, token, now);
      }
    }
  }

  lemma InvTables(db: Db)
    requires Inv(db)
    ensures Sound(db.tables) && (OrderInv(db) ==> AllInOrder(db.tables))
  {
  }

  lemma CommitTables(db: Db, t: Tables)
    requires Inv(db) && Proceeds(db.tables, t)
    ensures StepKeeps(db, db.(tables := t))
    ensures OrderInv(db) && AllInOrder(t) ==> OrderInv(db.(tables := t))
  {
    hide Sound, Evolves, Covered, AllLinked, AllInOrder, LogsGood;
    LogsLater(db, t);
  }

  lemma CatalogKeeps(db: Db, g: GameId, game: Game)
    requires Inv(db)
    ensures var r := db.(tables := PutGame(db.tables, g, game)); StepKeeps(db, r) && (OrderInv(db) ==> OrderInv(r))
  {
    hide Inv, OrderInv, StepKeeps, Proceeds, PutGame;
    InvTables(db);
    PutGameProceeds(db.tables, g, game);
    CommitTables(db, PutGame(db.tables, g, game));
  }

  lemma PutGameProceeds(t: Tables, g: GameId, game: Game)
    requires Sound(t)
    ensures var t1 := PutGame(t, g, game); Proceeds(t, t1) && (AllInOrder(t) ==> AllInOrder(t1))
  {
    hide Sound, Evolves, Covered, AllLinked, AllInOrder, PutGame;
    PutGameEvolves(t, g, game);
    if Covered(t) { PutGameCovered(t, g, game); }
    PutGameLinks(t, g, game);
  }

  lemma PutGameLinks(t: Tables, g: GameId, game: Game)
    ensures AllLinked(t) ==> AllLinked(PutGame(t, g, game))
    ensures AllInOrder(t) ==> AllInOrder(PutGame(t, g, game))
  {
    PutGameIs(t, g, game);
    hide PutGame, AllLinked, AllInOrder;
    SameRunsLinks(t, PutGame(t, g, game));
  }

  lemma OthersKeeps(db: Db, runs: nat, sessions: nat)
    requires Inv(db)
    ensures var r := db.(tables := MoreIds(db.tables, runs, sessions));
            StepKeeps(db, r) && (OrderInv(db) ==> OrderInv(r))
  {
    hide Inv, OrderInv, StepKeeps, Proceeds, MoreIds;
    InvTables(db);
    MoreIdsProceeds(db.tables, runs, sessions);
    CommitTables(db, MoreIds(db.tables, runs, sessions));
  }

  lemma WithStateProceeds(t: Tables)
    requires Sound(t)
    ensures var t1 := WithState(t);
            Proceeds(t, t1) && (AllInOrder(t) ==> AllInOrder(t1))
  {
    hide AllLinked, AllInOrder, Evolves, Covered;
    ProceedsReflexive(t);
    WithStateSound(t);
    SameRunsLinks(t, WithState(t));
  }

  lemma WithStateSound(t: Tables)
    requires Sound(t)
    ensures Sound(WithState(t)) && Evolves(t, WithState(t)) && (Covered(t) ==> Covered(WithState(t)))
  {
    if t.rev.Some? {
      assert WithState(t) == t;
      EvolvesReflexive(t);
      hide Sound;
    } else {
      forall g ensures g !in t.items {
        if g in t.items { ItemIsSound(t, g); }
      }
      forall id: nat ensures id !in t.runs && id !in t.sessions {
        if id in t.runs { RunIsSound(t, id); }
        if id in t.sessions { SessionIsSound(t, id); }
      }
    }
  }

  lemma PrefsKeeps(db: Db)
    requires Inv(db)
    ensures var r := db.(tables := WithState(db.tables));
            StepKeeps(db, r) && (OrderInv(db) ==> OrderInv(r))
  {
    hide Inv, OrderInv, StepKeeps, Proceeds;
    InvTables(db);
    WithStateProceeds(db.tables);
    CommitTables(db, WithState(db.tables));
  }

  lemma MoreIdsProceeds(t: Tables, runs: nat, sessions: nat)
    requires Sound(t)
    ensures var t1 := MoreIds(t, runs, sessions); Proceeds(t, t1) && (AllInOrder(t) ==> AllInOrder(t1))
  {
    hide Sound, AllLinked, AllInOrder, Evolves, MoreIds;
    MoreIdsSound(t, runs, sessions);
    MoreIdsLinks(t, runs, sessions);
    MoreIdsEvolves(t, runs, sessions);
  }

  lemma MoreIdsEvolves(t: Tables, runs: nat, sessions: nat)
    requires Sound(t)
    ensures Evolves(t, MoreIds(t, runs, sessions)) && (Covered(t) ==> Covered(MoreIds(t, runs, sessions)))
  {
    EvolvesReflexive(t);
    hide Sound;
  }

  lemma MoreIdsSound(t: Tables, runs: nat, sessions: nat)
    requires Sound(t)
    ensures Sound(MoreIds(t, runs, sessions))
  {
    var t1 := MoreIds(t, runs, sessions);
    forall id | id in t1.runs ensures RunSound(t1, id) { assert RunSound(t, id); }
    forall id | id in t1.sessions ensures SessionSound(t1, id) { assert SessionSound(t, id); }
    hide RowGood, RunSound, SessionSound;
  }

  lemma MoreIdsLinks(t: Tables, runs: nat, sessions: nat)
    ensures AllLinked(t) ==> AllLinked(MoreIds(t, runs, sessions))
    ensures AllInOrder(t) ==> AllInOrder(MoreIds(t, runs, sessions))
  {
    SameRunsLinks(t, MoreIds(t, runs, sessions));
  }

  /** Links and order look only at the runs and at which is current. */
  lemma SameRunsLinks(t: Tables, t1: Tables)
    requires t1.runs == t.runs && t1.items.Keys == t.items.Keys
    requires forall h | h in t.items :: t1.items[h].current == t.items[h].current
    ensures AllLinked(t) ==> AllLinked(t1)
    ensures AllInOrder(t) ==> AllInOrder(t1)
  {
    if AllLinked(t) {
      forall h | h in t1.items ensures Linked(t1, h) { assert Linked(t, h); }
    }
    if AllInOrder(t) {
      forall id | id in t1.runs && !IsCurrent(t1, id) ensures t1.runs[id].finishedOn.Some? { assert !IsCurrent(t, id); }
    }
  }

  /**
   * Every step, committed or rolled back, keeps the invariants; the runs stay
   * in order after it exactly when it does not reopen an old run.
   */
  lemma StepInvariant(db: Db, s: Step)
    requires Inv(db)
    ensures StepKeeps(db, Next(db, s))
    ensures OrderInv(db) ==> (OrderInv(Next(db, s)) <==> !Reopening(db, s))
  {
    hide Inv, OrderInv, StepKeeps, Reopens, Write, DeleteMany, Bulk, RunImport, Undo, UndoImport, LogSynced,
         RemoveSession, EditSession, EditPlaythrough, DeletePlaythrough, StartTimer, StopTimer, PruneUndo, PutGame,
         ReplaceChange;
    UntouchedKeeps(db);
    if Attempt(db, s).Ok? {
      match s
      case DoWrite(g, ch, mode, token, now) => WriteKeeps(db, g, ch, mode, token, now);
      case DoReplace(g, ch, token, now) => WriteKeeps(db, g, ReplaceChange(ch), Upsert, token, now);
      case DoDelete(g, token, now) => DeleteManyKeeps(db, [g], true, token, now);
      case DoBulk(a, token, now) => BulkKeeps(db, a, token, now);
      case DoImport(es, id, now) => ImportKeeps(db, es, id, now);
      case DoUndo(token, now) => UndoKeeps(db, token, now);
      case DoUndoImport(id, now) => UndoImportKeeps(db, id, now);
      case DoLogSynced(g, m, day, source, token, now) => LogSyncedKeeps(db, g, m, day, source, token, now);
      case DoRemoveSession(id, token, now) => RemoveSessionKeeps(db, id, token, now);
      case DoEditSession(id, e, token, now) => EditSessionKeeps(db, id, e, token, now);
      case DoEditPlaythrough(id, e, token, now) => EditPlaythroughKeeps(db, id, e, token, now);
      case DoDeletePlaythrough(id, token, now) => DeletePlaythroughKeeps(db, id, token, now);
      case DoStartTimer(g, now) => StartTimerKeeps(db, g, now);
      case DoStopTimer(log, m, day, token, now) => StopTimerKeeps(db, log, m, day, token, now);
      case DoPrune(now) => PruneKeeps(db, now);
      case DoPrefs => PrefsKeeps(db);
      case CatalogPut(g, game) => CatalogKeeps(db, g, game);
      case OtherUsers(runs, sessions) => OthersKeeps(db, runs, sessions);
    }
  }

  lemma UntouchedKeeps(db: Db)
    requires Inv(db)
    ensures StepKeeps(db, db)
  {
    hide StepKeeps, Inv;
    SameTablesKeeps(db, db);
  }

  lemma PruneKeeps(db: Db, now: Instant)
    requires Inv(db)
    ensures StepKeeps(db, PruneUndo(db, now)) && (OrderInv(db) ==> OrderInv(PruneUndo(db, now)))
  {
    hide StepKeeps, Inv, OrderInv;
    SameTablesKeeps(db, PruneUndo(db, now));
  }

  lemma LogSyncedKeeps(db: Db, g: GameId, minutes: int, playedOn: DayText, source: Source, token: nat, now: Instant)
    requires Inv(db) && LogSynced(db, g, minutes, playedOn, source, token, now).Ok?
    ensures var r := LogSynced(db, g, minutes, playedOn, source, token, now).value;
            StepKeeps(db, r) && (OrderInv(db) ==> OrderInv(r))
  {
    hide Inv, OrderInv, StepKeeps, LogOnCurrent;
    LogOnCurrentKeeps(db, g, playedOn.day, minutes, source, token, now);
  }

  // ---- Any history --------------------------------------------------------

  ghost predicate NeverReopens(db: Db, steps: seq<Step>)
    decreases steps
  {
    steps == [] || (!Reopening(db, steps[0]) && NeverReopens(Next(db, steps[0]), steps[1..]))
  }

  /**
   * Over every history: the tables stay sound, no stored total falls below
   * zero or below its sessions, current runs exist and belong to their item,
   * every recorded snapshot stays restorable, and as long as no step reopens
   * an old run each game has at most one open run.
   */
  lemma {:induction false} HistoryInvariant(db: Db, steps: seq<Step>)
    requires Inv(db)
    ensures StepKeeps(db, Play(db, steps))
    ensures OrderInv(db) && NeverReopens(db, steps) ==> OrderInv(Play(db, steps))
    decreases steps
  {
    hide OrderInv, Next, Reopening, Proceeds;
    UntouchedKeeps(db);
    if steps != [] {
      StepInvariant(db, steps[0]);
      var d1 := Next(db, steps[0]);
      HistoryInvariant(d1, steps[1..]);
      ProceedsTransitive(db.tables, d1.tables, Play(d1, steps[1..]).tables);
    }
  }

  /** A history's last step is taken from where the steps before it lead. */
  lemma {:induction false} PlaySnoc(db: Db, steps: seq<Step>, s: Step)
    ensures Play(db, steps + [s]) == Next(Play(db, steps), s)
    decreases steps
  {
    hide Next;
    if steps == [] {
      assert steps + [s] == [s] && [s][1..] == [];
    } else {
      assert (steps + [s])[1..] == steps[1..] + [s];
      PlaySnoc(Next(db, steps[0]), steps[1..], s);
    }
  }

  /** A library nothing has been written to. */
  const EMPTY := Db(Tables(map[], map[], map[], map[], map[], None, 0, 0, map[], map[]), None, map[], map[])

  lemma EmptyHolds()
    ensures Inv(EMPTY) && OrderInv(EMPTY) && Covered(EMPTY.tables)
  {
  }

  /**
   * In every library that writes can lead to: no stored total is below zero or
   * below the sum of its sessions, an item's current run is one of its own,
   * and, unless a step reopened an old run, it is the only open one.
   */
  lemma ReachableLibrary(steps: seq<Step>)
    ensures var t := Play(EMPTY, steps).tables;
            && (forall g | g in t.items :: 0 <= t.items[g].minutes && ItemSum(t.sessions, g) <= t.items[g].minutes)
            && (forall id | id in t.runs :: 0 <= t.runs[id].minutes && RunSum(t.sessions, id) <= t.runs[id].minutes)
            && (forall g | g in t.items && t.items[g].current.Some? ::
                  t.items[g].current.value in t.runs && t.runs[t.items[g].current.value].game == g)
            && (NeverReopens(EMPTY, steps) ==>
                  forall id | id in t.runs && t.runs[id].finishedOn.None? ::
                    t.runs[id].game in t.items && t.items[t.runs[id].game].current == Some(id))
  {
    hide Play, ItemSum, RunSum, OrderInv;
    EmptyHolds();
    HistoryInvariant(EMPTY, steps);
    var t := Play(EMPTY, steps).tables;
    forall g | g in t.items ensures 0 <= t.items[g].minutes { ItemIsSound(t, g); }
    forall id | id in t.runs ensures 0 <= t.runs[id].minutes { RunIsSound(t, id); }
    forall g | g in t.items && t.items[g].current.Some?
      ensures t.items[g].current.value in t.runs && t.runs[t.items[g].current.value].game == g
    {
      assert Linked(t, g);
    }
    if NeverReopens(EMPTY, steps) {
      OrderHolds(Play(EMPTY, steps));
    }
  }

  lemma OrderHolds(db: Db)
    requires OrderInv(db)
    ensures forall id | id in db.tables.runs && db.tables.runs[id].finishedOn.None? :: IsCurrent(db.tables, id)
  {
  }

  /**
   * A client in step with any point of a history, the platforms aside, is in step with the end of it
   * after one index, and may skip the index at the same revision.
   */
  lemma SyncOverHistory(db: Db, steps: seq<Step>, copy: map<GameId, Entry>, idx: Index)
    requires Inv(db) && SameButPlatforms(copy, Library(db.tables))
    requires IsIndex(Play(db, steps).tables, RevOf(db.tables), idx)
    ensures var later := Play(db, steps).tables;
            var got := Applied(copy, idx);
            && SameButPlatforms(got, Library(later)) && ShowsAsSent(db.tables, later, copy, got)
            && (got == Library(later) <==> UpToDate(db.tables, later, copy))
            && RevOf(db.tables) <= idx.rev == RevOf(later)
            && (idx.rev == RevOf(db.tables) ==>
                  && SameButPlatforms(copy, Library(later))
                  && (copy == Library(later) <==> UpToDate(db.tables, later, copy)))
  {
    HistoryInvariant(db, steps);
    var later := Play(db, steps);
    SyncFacts(db, later);
    hide Inv, Play, Library, Applied, SameButPlatforms;
    SyncConverges(db.tables, later.tables, copy, idx);
    if idx.rev == RevOf(db.tables) {
      SameRevSameLibrary(db.tables, later.tables, copy);
    }
  }

  lemma SyncFacts(db: Db, r: Db)
    requires Inv(db) && StepKeeps(db, r)
    ensures Sound(db.tables) && Sound(r.tables) && Evolves(db.tables, r.tables)
  {
  }

  // ---- Undoing several games ----------------------------------------------

  /** What undo leaves of one snapshotted game. */
  ghost predicate UndoneTo(a: Tables, r: Tables, g: GameId) {
    if g in a.items then SameButTotals(a, r, g) && (SameItem(a, r, g) <==> Replays(a, g))
    else g !in r.items
  }

  lemma UndoneElsewhere(a: Tables, r: Tables, r1: Tables, h: GameId, g: GameId)
    requires UndoneTo(a, r, g) && OnlyItem(r, r1, h) && g != h
    ensures UndoneTo(a, r1, g)
  {
    hide Replays;
    if g in a.items {
      SameFramed(a, r, r1, h, g);
    }
  }

  lemma SameFramed(a: Tables, r: Tables, r1: Tables, h: GameId, g: GameId)
    requires OnlyItem(r, r1, h) && g != h && SameButTotals(a, r, g)
    ensures SameButTotals(a, r1, g) && (SameItem(a, r, g) <==> SameItem(a, r1, g))
  {
    forall id | id in a.runs && a.runs[id].game == g ensures id in r1.runs && r1.runs[id] == r.runs[id] {}
    forall id | id in a.sessions && a.sessions[id].game == g
      ensures id in r1.sessions && r1.sessions[id] == r.sessions[id] {}
  }

  lemma UndoOne(a: Tables, b: Tables, g: GameId, now: Instant)
    requires Sound(a) && Sound(b) && Evolves(a, b)
    ensures var r := RestoreItem(b, TakeSnapshot(a, g), now); r.Ok? && Moves(b, r.value, g) && UndoneTo(a, r.value, g)
  {
    hide Sound, Evolves, Moves, RestoreItem, TakeSnapshot, SameButTotals, SameItem, Replays;
    if g in a.items { UndoExact(a, b, g, now); } else { UndoRemoves(a, b, g, now); }
  }

  /** One undo restores every game of its write, whatever was written in between. */
  lemma {:induction false} UndoRestoresAll(a: Tables, b: Tables, snaps: seq<Snapshot>, now: Instant)
    requires Sound(a) && Sound(b) && Evolves(a, b) && SnapsOf(a, snaps)
    ensures var r := RestoreAll(b, snaps, now);
            && r.Ok? && Sound(r.value) && Evolves(b, r.value)
            && (forall i | 0 <= i < |snaps| :: UndoneTo(a, r.value, snaps[i].game))
            && (forall g | !Named(snaps, g) ::
                  (UndoneTo(a, b, g) ==> UndoneTo(a, r.value, g)) && RowOf(r.value, g) == RowOf(b, g))
    decreases snaps
  {
    hide Sound, Evolves, Moves, RestoreItem, TakeSnapshot, UndoneTo;
    EvolvesReflexive(b);
    if snaps != [] {
      var g := snaps[0].game;
      UndoOne(a, b, g, now);
      var b1 := RestoreItem(b, snaps[0], now).value;
      MovedEvolves(b, b1, g);
      EvolvesTransitive(a, b, b1);
      var rest := snaps[1..];
      forall i | 0 <= i < |rest| ensures rest[i] == TakeSnapshot(a, rest[i].game) { assert rest[i] == snaps[i + 1]; }
      UndoRestoresAll(a, b1, rest, now);
      var r := RestoreAll(b1, rest, now).value;
      EvolvesTransitive(b, b1, r);
      assert !Named(rest, g) by {
        forall k | 0 <= k < |rest| ensures rest[k].game != g { assert rest[k] == snaps[k + 1]; }
      }
      forall i | 0 <= i < |snaps| ensures UndoneTo(a, r, snaps[i].game) {
        if i > 0 { assert snaps[i] == rest[i - 1]; }
      }
      forall h | !Named(snaps, h) ensures (UndoneTo(a, b, h) ==> UndoneTo(a, r, h)) && RowOf(r, h) == RowOf(b, h) {
        NotNamedInRest(snaps, h);
        if UndoneTo(a, b, h) { UndoneElsewhere(a, b, b1, g, h); }
        assert RowOf(b1, h) == RowOf(b, h) by { MovedOnly(b, b1, g); }
      }
    }
  }

  lemma NotNamedInRest(snaps: seq<Snapshot>, h: GameId)
    requires snaps != [] && !Named(snaps, h)
    ensures !Named(snaps[1..], h) && snaps[0].game != h
  {
    assert snaps[0].game != h;
    forall k | 0 <= k < |snaps[1..]| ensures snaps[1..][k].game != h { assert snaps[1..][k] == snaps[k + 1]; }
  }

  lemma EvolvesReflexive(t: Tables)
    requires Sound(t)
    ensures Evolves(t, t)
  {
  }

  lemma MovedEvolves(a: Tables, b: Tables, g: GameId)
    requires Moves(a, b, g)
    ensures Sound(b) && Evolves(a, b) && OnlyItem(a, b, g)
  {
  }

  /**
   * Undo at the end of a history: if the log still holds what a write on db
   * recorded, undoing it succeeds and puts each of its games back.
   */
  lemma UndoOverHistory(db: Db, snaps: seq<Snapshot>, steps: seq<Step>, token: nat, now: Instant)
    requires Inv(db) && SnapsOf(db.tables, snaps)
    requires var later := Play(db, steps);
             token in later.undo && later.undo[token].snaps == snaps && now - UNDO_WINDOW <= later.undo[token].createdAt
    ensures var later := Play(db, steps);
            var r := Undo(later, token, now);
            && r.Ok? && token !in r.value.undo
            && (forall i | 0 <= i < |snaps| :: UndoneTo(db.tables, r.value.tables, snaps[i].game))
            && (forall g | !Named(snaps, g) :: RowOf(r.value.tables, g) == RowOf(later.tables, g))
  {
    HistoryInvariant(db, steps);
    var later := Play(db, steps);
    SyncFacts(db, later);
    hide Inv, Play, UndoneTo, SnapsOf, Sound, Evolves;
    UndoRestoresAll(db.tables, later.tables, snaps, now);
  }

  /** Every entry of a log was there before the step, or holds snapshots of the library before it. */
  ghost predicate Records(db: Db, r: Db) {
    && (forall k | k in r.undo :: (k in db.undo && r.undo[k] == db.undo[k]) || SnapsOf(db.tables, r.undo[k].snaps))
    && (forall k | k in r.batches ::
          (k in db.batches && r.batches[k].snaps == db.batches[k].snaps) || SnapsOf(db.tables, r.batches[k].snaps))
  }

  lemma SaveUndoRecords(db: Db, d1: Db, t: Tables, snaps: seq<Snapshot>, token: nat, now: Instant)
    requires SnapsOf(db.tables, snaps) && SaveUndo(d1, t, snaps, token, now).Ok?
    requires d1.undo == db.undo && d1.batches == db.batches
    ensures Records(db, SaveUndo(d1, t, snaps, token, now).value)
  {
    hide SnapsOf;
  }

  lemma OneRecorded(db: Db, d1: Db, t: Tables, g: GameId, token: nat, now: Instant)
    requires SaveUndo(d1, t, [TakeSnapshot(db.tables, g)], token, now).Ok?
    requires d1.undo == db.undo && d1.batches == db.batches
    ensures Records(db, SaveUndo(d1, t, [TakeSnapshot(db.tables, g)], token, now).value)
  {
    hide TakeSnapshot, SaveUndo, Records;
    OneSnapshot(db.tables, g);
    SaveUndoRecords(db, d1, t, [TakeSnapshot(db.tables, g)], token, now);
  }

  lemma DeleteRecords(db: Db, ids: seq<GameId>, requireAll: bool, token: nat, now: Instant)
    requires Inv(db) && DistinctIds(ids) && DeleteMany(db, ids, requireAll, token, now).Ok?
    ensures Records(db, DeleteMany(db, ids, requireAll, token, now).value)
  {
    hide Sound, AllLinked, LogsGood, Touched, DeleteEach, SnapsOf, SaveUndo, Records;
    NothingTouched(db.tables);
    DeleteEachTouches(db.tables, Deleting(db.tables, db.timer, []), ids, requireAll);
    var d := DeleteEach(Deleting(db.tables, db.timer, []), ids, requireAll).value;
    TouchedIs(db.tables, d.tables, d.snaps);
    SaveUndoRecords(db, db.(timer := d.timer), d.tables, d.snaps, token, now);
  }

  lemma BulkRecords(db: Db, a: BulkAction, token: nat, now: Instant)
    requires Inv(db) && Bulk(db, a, token, now).Ok?
    ensures Records(db, Bulk(db, a, token, now).value)
  {
    hide Sound, AllLinked, LogsGood, Touched, DeleteMany, BulkEach, DedupeIds, SnapsOf, SaveUndo, Records;
    var ids := DedupeIds(a.games, {});
    DedupedDistinct(a.games, {});
    if a.remove {
      DeleteRecords(db, ids, false, token, now);
    } else {
      NothingTouched(db.tables);
      BulkEachTouches(db.tables, Bulking(db.tables, []), ids, a, now);
      var b := BulkEach(Bulking(db.tables, []), ids, a, now).value;
      TouchedIs(db.tables, b.tables, b.snaps);
      SaveUndoRecords(db, db, b.tables, b.snaps, token, now);
    }
  }

  lemma ImportRecords(db: Db, es: seq<ImportEntry>, id: nat, now: Instant)
    requires Inv(db) && RunImport(db, es, id, now).Ok?
    ensures Records(db, RunImport(db, es, id, now).value)
  {
    hide Sound, AllLinked, LogsGood, Touched, ImportAll, SnapsOf;
    ImportTouches(db.tables, es, now);
    var b := ImportAll(db.tables, es, now).value;
    TouchedIs(db.tables, b.tables, b.snaps);
  }

  lemma StepRecords(db: Db, s: Step)
    requires Inv(db)
    ensures Records(db, Next(db, s))
  {
    hide Inv, TakeSnapshot, SnapsOf, ApplyChange, DeleteMany, Bulk, RunImport, RestoreAll, InsertSession,
         DeleteSession, UpdateSession, UpdateRun, UpdateItem, ClearCurrent, PutGame, ReplaceChange, SaveUndo,
         TimerMinutes;
    var t := db.tables;
    if Attempt(db, s).Ok? {
      match s
      case DoWrite(g, ch, mode, token, now) =>
        OneRecorded(db, db, ApplyChange(t, g, ch, mode, now).value, g, token, now);
      case DoReplace(g, ch, token, now) =>
        OneRecorded(db, db, ApplyChange(t, g, ReplaceChange(ch), Upsert, now).value, g, token, now);
      case DoDelete(g, token, now) => DeleteRecords(db, [g], true, token, now);
      case DoBulk(a, token, now) => BulkRecords(db, a, token, now);
      case DoImport(es, id, now) => ImportRecords(db, es, id, now);
      case DoUndo(_, _) =>
      case DoUndoImport(_, _) =>
      case DoLogSynced(g, m, day, source, token, now) => LogRecords(db, db, g, day.day, m, source, token, now);
      case DoRemoveSession(id, token, now) =>
        OneRecorded(db, db, DeleteSession(t, id), t.sessions[id].game, token, now);
      case DoEditSession(id, e, token, now) => EditSessionRecords(db, id, e, token, now);
      case DoEditPlaythrough(id, e, token, now) =>
        var g := t.runs[id].game;
        OneRecorded(db, db, if e == NO_RUN_EDIT || g !in t.items then t
                    else UpdateItem(UpdateRun(t, id, EditedRun(t.runs[id], e)), g, t.items[g]), g, token, now);
      case DoDeletePlaythrough(id, token, now) =>
        OneRecorded(db, db, ClearCurrent(DeleteRun(t, id), t.runs[id].game, id), t.runs[id].game, token, now);
      case DoStartTimer(_, _) =>
      case DoStopTimer(log, m, day, token, now) => StopTimerRecords(db, log, m, day, token, now);
      case DoPrune(_) =>
      case DoPrefs =>
      case CatalogPut(_, _) =>
      case OtherUsers(_, _) =>
    }
  }

  lemma LogRecords(db: Db, d1: Db, g: GameId, day: Day, minutes: int, source: Source, token: nat, now: Instant)
    requires d1.tables == db.tables && d1.undo == db.undo && d1.batches == db.batches
    requires LogOnCurrent(d1, g, day, minutes, source, token, now).Ok?
    ensures Records(db, LogOnCurrent(d1, g, day, minutes, source, token, now).value)
  {
    hide InsertSession, SaveUndo, Records, TakeSnapshot;
    var t := db.tables;
    OneRecorded(
      db, d1,
      InsertSession(t, t.sessSeq + 1, Session(g, t.items[g].current, day, minutes, "", source, now), now).value,
      g, token, now);
  }

  lemma EditSessionRecords(db: Db, id: nat, e: SessionEdit, token: nat, now: Instant)
    requires EditSession(db, id, e, token, now).Ok?
    ensures Records(db, EditSession(db, id, e, token, now).value)
  {
    hide UpdateSession, SaveUndo, Records, TakeSnapshot, Text.Trim;
    var s := db.tables.sessions[id];
    var w := UpdateSession(db.tables, id,
                           if e.playedOn.Some? then e.playedOn.value.day else s.playedOn,
                           if e.minutes.Some? then e.minutes.value else s.minutes,
                           if e.note.Some? then Text.Trim(e.note.value) else s.note);
    OneRecorded(db, db, w.value, s.game, token, now);
  }

  lemma StopTimerRecords(db: Db, log: bool, minutes: int, playedOn: DayText, token: nat, now: Instant)
    ensures Records(db, StopTimer(db, log, minutes, playedOn, token, now).0)
  {
    hide LogOnCurrent, TimerMinutes, SnapsOf;
    var stopped := db.(timer := None);
    if db.timer.Some? && log {
      var m := TimerMinutes(minutes, db.timer.value.startedAt, now);
      if LogOnCurrent(stopped, db.timer.value.game, Today(playedOn, now), m, Timer, token, now).Ok? {
        LogRecords(db, stopped, db.timer.value.game, Today(playedOn, now), m, Timer, token, now);
      }
    }
  }
}
