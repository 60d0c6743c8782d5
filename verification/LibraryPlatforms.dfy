// What a synced client misses: games_library_rev_au does not watch the column
// of the platforms a game came out on, which the index carries.
module LibraryPlatforms {
  import opened Prelude
  import opened LibraryTypes
  import opened LibraryTables
  import opened LibraryLedger
  import opened LibraryWrites
  import opened LibraryUndo
  import opened LibraryImport
  import opened LibrarySync
  import opened LibraryHistory
  import opened LibraryInvariant
  import opened LibraryWitness
  import Text

  // ---- Only the catalog changes the catalog -------------------------------

  lemma ApplyGames(t: Tables, g: GameId, ch: Change, mode: Mode, now: Instant)
    requires Sound(t) && RunsLinked(t, g) && ApplyChange(t, g, ch, mode, now).Ok?
    ensures ApplyChange(t, g, ch, mode, now).value.games == t.games
  {
    hide Sound, ApplyChange, Evolves, Covered, Linked, KeepsOrder;
    ApplyChangeMoves(t, g, ch, mode, now);
  }

  lemma {:induction false} RestoreAllGames(t: Tables, snaps: seq<Snapshot>, now: Instant)
    requires Sound(t) && SnapsGood(t, snaps)
    ensures RestoreAll(t, snaps, now).Ok? && RestoreAll(t, snaps, now).value.games == t.games
    decreases snaps
  {
    hide Sound, Evolves, Covered, RestoreItem, Restorable, Restored, SnapLinked, SnapInOrder, SnapsGood, AllLinked,
         AllInOrder;
    if snaps != [] {
      forall i | 0 <= i < |snaps[1..]| ensures snaps[1..][i] == snaps[i + 1] {}
      RestGood(t, snaps);
      RestoreItemProceeds(t, snaps[0], now);
      var t1 := RestoreItem(t, snaps[0], now).value;
      SnapsGoodLater(t, t1, snaps[1..]);
      RestoreAllGames(t1, snaps[1..], now);
    }
  }

  lemma RestGood(t: Tables, snaps: seq<Snapshot>)
    requires snaps != [] && SnapsGood(t, snaps)
    ensures Restorable(t, snaps[0]) && SnapLinked(snaps[0]) && SnapsGood(t, snaps[1..])
  {
    hide Restorable, SnapLinked;
    forall i | 0 <= i < |snaps[1..]| ensures Restorable(t, snaps[1..][i]) && SnapLinked(snaps[1..][i]) {
      assert snaps[1..][i] == snaps[i + 1];
    }
  }

  lemma {:induction false} ImportEachGames(b: Batch, hs: seq<ImportEntry>, now: Instant)
    requires Ready(b.tables) && ImportEach(b, hs, now).Ok?
    ensures ImportEach(b, hs, now).value.tables.games == b.tables.games
    decreases hs
  {
    hide ImportOne, Sound, Evolves, Covered, AllInOrder, AllLinked, Counted, Advances;
    if hs != [] {
      var b1 := FirstHead(b, hs, now);
      ImportEachGames(b1, hs[1..], now);
    }
  }

  lemma {:induction false} DeleteEachGames(d: Deleting, ids: seq<GameId>, requireAll: bool)
    ensures DeleteEach(d, ids, requireAll).Ok? ==> DeleteEach(d, ids, requireAll).value.tables.games == d.tables.games
    decreases ids
  {
    hide DeleteItem, TakeSnapshot;
    if ids != [] {
      DeleteItemRows(d.tables, ids[0]);
      var timer := if d.timer.Some? && d.timer.value.game == ids[0] then None else d.timer;
      DeleteEachGames(d, ids[1..], requireAll);
      DeleteEachGames(
        Deleting(DeleteItem(d.tables, ids[0]), timer, d.snaps + [TakeSnapshot(d.tables, ids[0])]), ids[1..],
        requireAll);
    }
  }

  lemma {:induction false} BulkEachGames(b: Bulking, ids: seq<GameId>, a: BulkAction, now: Instant)
    requires Ready(b.tables) && BulkEach(b, ids, a, now).Ok?
    ensures BulkEach(b, ids, a, now).value.tables.games == b.tables.games
    decreases ids
  {
    hide Sound, ApplyChange, TakeSnapshot, KeepsOrder, AllLinked, Linked, EditTags, Evolves, Covered;
    if ids != [] {
      var g := ids[0];
      var ch := BulkChange(a, if g in b.tables.items then b.tables.items[g].tags else []);
      var w := ApplyChange(b.tables, g, ch, Patch, now);
      if w.Ok? {
        LinkedAt(b.tables, g);
        ApplyChangeMoves(b.tables, g, ch, Patch, now);
        ReadyElsewhere(b.tables, w.value, g);
        BulkEachGames(Bulking(w.value, b.snaps + [TakeSnapshot(b.tables, g)]), ids[1..], a, now);
      } else {
        BulkEachGames(b, ids[1..], a, now);
      }
    }
  }

  lemma ReadyElsewhere(a: Tables, b: Tables, g: GameId)
    requires Moves(a, b, g) && AllLinked(a) && g in b.items && Linked(b, g)
    ensures Ready(b) && b.games == a.games
  {
    hide Sound, Evolves, Covered, Linked;
    InOrderElsewhere(a, b, g);
  }

  lemma InsertedGames(t: Tables, id: nat, s: Session, now: Instant)
    ensures InsertSession(t, id, s, now).Ok? ==> InsertSession(t, id, s, now).value.games == t.games
  {
    hide SessionCheck, AddRunMinutes;
    if InsertSession(t, id, s, now).Ok? {
      var t1 := PutSession(t, id, s);
      var row := t1.items[s.game];
      AddRunMinutesOnly(UpdateItem(t1, s.game, row.(minutes := Max(0, row.minutes + s.minutes), updatedAt := now)),
                        s.run, s.minutes);
    }
  }

  lemma DeletedGames(t: Tables, id: nat)
    ensures DeleteSession(t, id).games == t.games
  {
    hide AddItemMinutes, AddRunMinutes;
    if id in t.sessions {
      var s := t.sessions[id];
      ItemMinutesGames(DropSession(t, id), s.game, -s.minutes);
      AddRunMinutesOnly(AddItemMinutes(DropSession(t, id), s.game, -s.minutes), s.run, -s.minutes);
    }
  }

  lemma ItemMinutesGames(t: Tables, g: GameId, delta: int)
    ensures AddItemMinutes(t, g, delta).games == t.games
  {
  }

  lemma UpdatedGames(t: Tables, id: nat, day: Day, minutes: int, note: string)
    ensures UpdateSession(t, id, day, minutes, note).Ok? ==>
              UpdateSession(t, id, day, minutes, note).value.games == t.games
  {
    hide SessionCheck, AddItemMinutes, AddRunMinutes;
    if id in t.sessions {
      var was := t.sessions[id];
      var s := was.(playedOn := day, minutes := minutes, note := note);
      var put := t.(sessions := t.sessions[id := s]);
      ItemMinutesGames(put, s.game, s.minutes - was.minutes);
      AddRunMinutesOnly(AddItemMinutes(put, s.game, s.minutes - was.minutes), s.run, -was.minutes);
    }
  }

  lemma {:induction false} DeleteSessionsGames(t: Tables, ids: seq<nat>)
    ensures DeleteSessions(t, ids).games == t.games
    decreases ids
  {
    hide DeleteSession;
    if ids != [] {
      DeletedGames(t, ids[0]);
      DeleteSessionsGames(DeleteSession(t, ids[0]), ids[1..]);
    }
  }

  lemma SavedGames(db: Db, t: Tables, snaps: seq<Snapshot>, token: nat, now: Instant)
    ensures SaveUndo(db, t, snaps, token, now).Ok? ==> SaveUndo(db, t, snaps, token, now).value.tables == t
  {
  }

  lemma WriteGames(db: Db, g: GameId, ch: Change, mode: Mode, token: nat, now: Instant)
    requires Inv(db) && Write(db, g, ch, mode, token, now).Ok?
    ensures Write(db, g, ch, mode, token, now).value.tables.games == db.tables.games
  {
    hide Sound, LogsGood, Linked, ApplyChange, SaveUndo, TakeSnapshot;
    LinkedAt(db.tables, g);
    ApplyGames(db.tables, g, ch, mode, now);
    SavedGames(db, ApplyChange(db.tables, g, ch, mode, now).value, [TakeSnapshot(db.tables, g)], token, now);
  }

  lemma DeleteManyGames(db: Db, ids: seq<GameId>, requireAll: bool, token: nat, now: Instant)
    requires DeleteMany(db, ids, requireAll, token, now).Ok?
    ensures DeleteMany(db, ids, requireAll, token, now).value.tables.games == db.tables.games
  {
    hide DeleteEach, SaveUndo;
    DeleteEachGames(Deleting(db.tables, db.timer, []), ids, requireAll);
    var d := DeleteEach(Deleting(db.tables, db.timer, []), ids, requireAll).value;
    SavedGames(db.(timer := d.timer), d.tables, d.snaps, token, now);
  }

  lemma BulkGames(db: Db, a: BulkAction, token: nat, now: Instant)
    requires Ready(db.tables) && Bulk(db, a, token, now).Ok?
    ensures Bulk(db, a, token, now).value.tables.games == db.tables.games
  {
    hide Ready, DeleteMany, BulkEach, SaveUndo, DedupeIds;
    var ids := DedupeIds(a.games, {});
    if a.remove {
      DeleteManyGames(db, ids, false, token, now);
    } else {
      BulkEachGames(Bulking(db.tables, []), ids, a, now);
      var b := BulkEach(Bulking(db.tables, []), ids, a, now).value;
      SavedGames(db, b.tables, b.snaps, token, now);
    }
  }

  lemma ImportGames(db: Db, es: seq<ImportEntry>, id: nat, now: Instant)
    requires Ready(db.tables) && RunImport(db, es, id, now).Ok?
    ensures RunImport(db, es, id, now).value.tables.games == db.tables.games
  {
    hide Ready, ImportEach;
    ImportEachGames(Batch(db.tables, [], 0, 0, 0), Heads(es, {}), now);
  }

  lemma LogGames(db: Db, g: GameId, day: Day, minutes: int, source: Source, token: nat, now: Instant)
    requires LogOnCurrent(db, g, day, minutes, source, token, now).Ok?
    ensures LogOnCurrent(db, g, day, minutes, source, token, now).value.tables.games == db.tables.games
  {
    hide InsertSession, SaveUndo, TakeSnapshot;
    var t := db.tables;
    var s := Session(g, t.items[g].current, day, minutes, "", source, now);
    InsertedGames(t, t.sessSeq + 1, s, now);
    SavedGames(db, InsertSession(t, t.sessSeq + 1, s, now).value, [TakeSnapshot(t, g)], token, now);
  }

  lemma EditGames(db: Db, id: nat, e: SessionEdit, token: nat, now: Instant)
    requires EditSession(db, id, e, token, now).Ok?
    ensures EditSession(db, id, e, token, now).value.tables.games == db.tables.games
  {
    hide UpdateSession, SaveUndo, TakeSnapshot, Text.Trim;
    var t := db.tables;
    var s := t.sessions[id];
    var day := if e.playedOn.Some? then e.playedOn.value.day else s.playedOn;
    var minutes := if e.minutes.Some? then e.minutes.value else s.minutes;
    var note := if e.note.Some? then Text.Trim(e.note.value) else s.note;
    UpdatedGames(t, id, day, minutes, note);
    SavedGames(db, UpdateSession(t, id, day, minutes, note).value, [TakeSnapshot(t, s.game)], token, now);
  }

  lemma RemoveGames(db: Db, id: nat, token: nat, now: Instant)
    requires RemoveSession(db, id, token, now).Ok?
    ensures RemoveSession(db, id, token, now).value.tables.games == db.tables.games
  {
    hide DeleteSession, SaveUndo, TakeSnapshot;
    DeletedGames(db.tables, id);
    SavedGames(db, DeleteSession(db.tables, id), [TakeSnapshot(db.tables, db.tables.sessions[id].game)], token, now);
  }

  lemma EditRunGames(db: Db, id: nat, e: RunEdit, token: nat, now: Instant)
    requires EditPlaythrough(db, id, e, token, now).Ok?
    ensures EditPlaythrough(db, id, e, token, now).value.tables.games == db.tables.games
  {
    hide TakeSnapshot, SaveUndo, RunEditError, EditedRun;
    var t := db.tables;
    var g := t.runs[id].game;
    var t1 := if e == NO_RUN_EDIT || g !in t.items then t
    else UpdateItem(UpdateRun(t, id, EditedRun(t.runs[id], e)), g, t.items[g]);
    SavedGames(db, t1, [TakeSnapshot(t, g)], token, now);
  }

  lemma DeleteRunGames(db: Db, id: nat, token: nat, now: Instant)
    requires DeletePlaythrough(db, id, token, now).Ok?
    ensures DeletePlaythrough(db, id, token, now).value.tables.games == db.tables.games
  {
    hide TakeSnapshot, SaveUndo, DeleteSessions, Ascending;
    var t := db.tables;
    DeleteSessionsGames(t.(runs := t.runs - {id}), Ascending(SessionsOfRun(t, id)));
    SavedGames(db, ClearCurrent(DeleteRun(t, id), t.runs[id].game, id), [TakeSnapshot(t, t.runs[id].game)], token, now);
  }

  lemma StopTimerGames(db: Db, log: bool, minutes: int, playedOn: DayText, token: nat, now: Instant)
    ensures StopTimer(db, log, minutes, playedOn, token, now).0.tables.games == db.tables.games
  {
    hide LogOnCurrent, TimerMinutes;
    var stopped := db.(timer := None);
    if db.timer.Some? && log {
      var m := TimerMinutes(minutes, db.timer.value.startedAt, now);
      if LogOnCurrent(stopped, db.timer.value.game, Today(playedOn, now), m, Timer, token, now).Ok? {
        LogGames(stopped, db.timer.value.game, Today(playedOn, now), m, Timer, token, now);
      }
    }
  }

  lemma UndoGames(db: Db, k: nat, now: Instant)
    requires Inv(db)
    ensures Undo(db, k, now).Ok? ==> Undo(db, k, now).value.tables.games == db.tables.games
    ensures UndoImport(db, k, now).Ok? ==> UndoImport(db, k, now).value.tables.games == db.tables.games
  {
    hide Sound, AllLinked, SnapsGood, RestoreAll;
    if k in db.undo { RestoreAllGames(db.tables, db.undo[k].snaps, now); }
    if k in db.batches { RestoreAllGames(db.tables, db.batches[k].snaps, now); }
  }

  lemma InvIsReady(db: Db)
    requires Inv(db)
    ensures Ready(db.tables)
  {
  }

  lemma StepGames(db: Db, s: Step)
    requires Inv(db) && !s.CatalogPut?
    ensures Next(db, s).tables.games == db.tables.games
  {
    hide Inv, Ready, Write, DeleteMany, Bulk, RunImport, Undo, UndoImport, LogOnCurrent, RemoveSession, EditSession,
         EditPlaythrough, DeletePlaythrough, StopTimer, ReplaceChange;
    InvIsReady(db);
    if Attempt(db, s).Ok? {
      match s
      case DoWrite(g, ch, mode, token, now) => WriteGames(db, g, ch, mode, token, now);
      case DoReplace(g, ch, token, now) => WriteGames(db, g, ReplaceChange(ch), Upsert, token, now);
      case DoDelete(g, token, now) => DeleteManyGames(db, [g], true, token, now);
      case DoBulk(a, token, now) => BulkGames(db, a, token, now);
      case DoImport(es, id, now) => ImportGames(db, es, id, now);
      case DoUndo(token, now) => UndoGames(db, token, now);
      case DoUndoImport(id, now) => UndoGames(db, id, now);
      case DoLogSynced(g, m, day, source, token, now) => LogGames(db, g, day.day, m, source, token, now);
      case DoRemoveSession(id, token, now) => RemoveGames(db, id, token, now);
      case DoEditSession(id, e, token, now) => EditGames(db, id, e, token, now);
      case DoEditPlaythrough(id, e, token, now) => EditRunGames(db, id, e, token, now);
      case DoDeletePlaythrough(id, token, now) => DeleteRunGames(db, id, token, now);
      case DoStartTimer(_, _) =>
      case DoStopTimer(log, m, day, token, now) => StopTimerGames(db, log, m, day, token, now);
      case DoPrune(_) =>
      case DoPrefs =>
      case OtherUsers(_, _) =>
    }
  }

  // ---- Platforms that no index sends --------------------------------------

  /** A catalog edit of a listed game that changes its platforms and nothing watched. */
  predicate QuietPut(db: Db, s: Step) {
    s.CatalogPut? && s.game in db.tables.items && s.game in db.tables.games
    && Watched(db.tables.games[s.game]) == Watched(s.entry) && db.tables.games[s.game].platforms != s.entry.platforms
  }

  /** After a step a client that was in step misses no platforms exactly when it is not such an edit. */
  lemma StepPlatforms(db: Db, s: Step)
    requires Inv(db)
    ensures PlatformsSent(db.tables, Next(db, s).tables) <==> !QuietPut(db, s)
  {
    if s.CatalogPut? {
      InvIsReady(db);
      hide Inv;
      PutPlatforms(db.tables, s.game, s.entry);
    } else {
      hide Inv, Next;
      StepGames(db, s);
    }
  }

  lemma PutPlatforms(t: Tables, g: GameId, game: Game)
    requires Sound(t)
    ensures PlatformsSent(t, PutGame(t, g, game)) <==>
            !(g in t.items && g in t.games && Watched(t.games[g]) == Watched(game)
              && t.games[g].platforms != game.platforms)
  {
    PutGameIs(t, g, game);
    if g in t.items { ItemIsSound(t, g); }
    hide PutGame, Sound;
  }

  lemma SentTransitive(a: Tables, b: Tables, c: Tables)
    requires Evolves(a, b) && Evolves(b, c) && PlatformsSent(a, b) && PlatformsSent(b, c) && Sound(c) && Sound(b)
    ensures PlatformsSent(a, c)
  {
    forall g | g in c.items && c.items[g].rev <= RevOf(a) && g in a.games && g in c.games
      ensures a.games[g].platforms == c.games[g].platforms
    {
      assert KeptItem(b, c, g);
    }
    hide Sound;
  }

  ghost predicate NeverQuiet(db: Db, steps: seq<Step>)
    decreases steps
  {
    steps == [] || (!QuietPut(db, steps[0]) && NeverQuiet(Next(db, steps[0]), steps[1..]))
  }

  lemma {:induction false} HistoryPlatforms(db: Db, steps: seq<Step>)
    requires Inv(db) && NeverQuiet(db, steps)
    ensures PlatformsSent(db.tables, Play(db, steps).tables)
    decreases steps
  {
    hide Inv, Next, QuietPut, Sound, Evolves;
    if steps == [] {
      NothingSent(db.tables);
    } else {
      var d1 := Next(db, steps[0]);
      StepInvariant(db, steps[0]);
      StepPlatforms(db, steps[0]);
      HistoryPlatforms(d1, steps[1..]);
      HistoryInvariant(d1, steps[1..]);
      SyncFacts(db, d1);
      SyncFacts(d1, Play(d1, steps[1..]));
      hide Play;
      SentTransitive(db.tables, d1.tables, Play(d1, steps[1..]).tables);
    }
  }

  lemma NothingSent(t: Tables)
    ensures PlatformsSent(t, t)
  {
  }

  /**
   * As long as the catalog makes no such edit, a client that showed the library shows it again after
   * one index, to the last column.
   */
  lemma SyncUnlessQuiet(db: Db, steps: seq<Step>, idx: Index)
    requires Inv(db) && NeverQuiet(db, steps) && IsIndex(Play(db, steps).tables, RevOf(db.tables), idx)
    ensures Applied(Library(db.tables), idx) == Library(Play(db, steps).tables)
  {
    hide Inv, Play, NeverQuiet, Library, Applied, IsIndex, PlatformsSent, UpToDate, Sound, Evolves;
    HistoryPlatforms(db, steps);
    HistoryInvariant(db, steps);
    SyncFacts(db, Play(db, steps));
    ExactUpToDate(db.tables, Play(db, steps).tables);
    SyncOverHistory(db, steps, Library(db.tables), idx);
  }

  const MORE := GAME.(platforms := [6])

  const ADDED := [CatalogPut(1, GAME)] + [DoWrite(1, SET_TEN, Upsert, 1, 0)]

  lemma OneAdded()
    ensures Reaches(Play(EMPTY, ADDED), TEN_SET, 1)
  {
    hide Play, ApplyChange, Reaches;
    ListsGame();
    SetsTen();
    Writes([CatalogPut(1, GAME)], LISTED, 0, SET_TEN, Upsert, TEN_SET);
  }

  lemma Quietly(db: Db)
    requires Reaches(db, TEN_SET, 1)
    ensures QuietPut(db, CatalogPut(1, MORE)) && RevOf(Next(db, CatalogPut(1, MORE)).tables) == RevOf(db.tables)
  {
    PutGameIs(TEN_SET, 1, MORE);
    hide PutGame;
  }

  /** A listed game comes out on a platform more: the revision stays, and no index since then says so. */
  lemma PlatformNeverSent(idx: Index)
    requires var db := Play(EMPTY, ADDED); IsIndex(Next(db, CatalogPut(1, MORE)).tables, RevOf(db.tables), idx)
    ensures var db := Play(EMPTY, ADDED);
            var later := Next(db, CatalogPut(1, MORE)).tables;
            RevOf(later) == RevOf(db.tables) && Applied(Library(db.tables), idx) != Library(later)
  {
    hide Play, Library, Applied, IsIndex, Inv, Next, Reaches, QuietPut, Sound, Evolves, PlatformsSent, UpToDate;
    OneAdded();
    EmptyHolds();
    HistoryInvariant(EMPTY, ADDED);
    var db := Play(EMPTY, ADDED);
    Quietly(db);
    StepPlatforms(db, CatalogPut(1, MORE));
    StepInvariant(db, CatalogPut(1, MORE));
    SyncFacts(db, Next(db, CatalogPut(1, MORE)));
    ExactUpToDate(db.tables, Next(db, CatalogPut(1, MORE)).tables);
    SyncConverges(db.tables, Next(db, CatalogPut(1, MORE)).tables, Library(db.tables), idx);
  }
}
