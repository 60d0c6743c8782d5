// When each operation on a library commits: the conditions a caller can read
// off the library before the call, exactly those, over every history.
module LibraryAnswers {
  import opened Prelude
  import opened LibraryTypes
  import opened LibraryTables
  import opened LibraryLedger
  import opened LibraryWrites
  import opened LibraryUndo
  import opened LibraryImport
  import opened LibraryHistory
  import opened LibraryInvariant
  import opened LibraryLogs
  import opened LibraryEffects
  import opened LibraryOperations
  import opened LibraryJournal
  import Text

  // ---- The undo log -------------------------------------------------------

  /** A token can be used: it has no entry, or one that is past its fifteen minutes. */
  ghost predicate Free(db: Db, token: nat, now: Instant) {
    token in db.undo ==> db.undo[token].createdAt < now - 900
  }

  lemma SaveAnswers(db: Db, t: Tables, snaps: seq<Snapshot>, token: nat, now: Instant)
    ensures SaveUndo(db, t, snaps, token, now).Ok? <==> snaps == [] || Free(db, token, now)
  {
  }

  // ---- Writes -------------------------------------------------------------

  /** A change can be written to a game. */
  ghost predicate WriteAccepted(t: Tables, g: GameId, ch: Change, mode: Mode) {
    && g in t.games && (g in t.items || mode.Upsert?) && !FieldRefused(t, g, ch)
    && !(ch.minutes.Some? && ch.minutesDelta.Some?) && !(ch.minutes.Some? && ch.minutes.value < 0)
    && !ch.playedOn.BadDay? && !ch.startedAt.BadTime? && !ch.completedAt.BadTime?
    && ch.completion != Some(BadCompletion)
    && (|Text.Trim(ch.sessionNote)| <= 500 || TotalAsked(t, g, ch) == TotalNow(t, g))
  }

  lemma WriteAnswers(t: Tables, g: GameId, ch: Change, mode: Mode, now: Instant)
    requires Sound(t) && RunsLinked(t, g)
    ensures ApplyChange(t, g, ch, mode, now).Ok? <==> WriteAccepted(t, g, ch, mode)
  {
    hide Sound, Linked, ApplyChange, FieldRefused, Text.Trim;
    ApplyChangeRefuses(t, g, ch, mode, now);
  }

  /** Whether a change's fields are refused depends on the game's own row alone. */
  lemma RefusedByRow(t: Tables, t': Tables, g: GameId, ch: Change)
    requires RowOf(t, g) == RowOf(t', g)
    ensures FieldRefused(t, g, ch) == FieldRefused(t', g, ch) && TotalNow(t, g) == TotalNow(t', g)
  {
    assert g in t.items <==> g in t'.items;
    assert AskedTags(t, g, ch) == AskedTags(t', g, ch) && AskedOwned(t, g, ch) == AskedOwned(t', g, ch);
    hide Text.Distinct, Text.Bytes;
  }

  // ---- Deleting and bulk edits --------------------------------------------

  ghost predicate SomeIn(t: Tables, ids: seq<GameId>) {
    exists g | g in ids :: g in t.items
  }

  lemma {:induction false} DeletedSnaps(d: Deleting, ids: seq<GameId>)
    ensures var r := DeleteEach(d, ids, false);
            && r.Ok? && |d.snaps| <= |r.value.snaps|
            && (|d.snaps| < |r.value.snaps| <==> SomeIn(d.tables, ids))
    decreases ids
  {
    hide DeleteItem, TakeSnapshot;
    if ids != [] {
      assert forall g :: g in ids <==> g == ids[0] || g in ids[1..];
      if ids[0] in d.tables.items {
        var timer := if d.timer.Some? && d.timer.value.game == ids[0] then None else d.timer;
        DeletedSnaps(Deleting(DeleteItem(d.tables, ids[0]), timer, d.snaps + [TakeSnapshot(d.tables, ids[0])]),
                     ids[1..]);
      } else {
        DeletedSnaps(d, ids[1..]);
      }
    }
  }

  /** What a bulk edit asks of one of its games. */
  function AskedOf(t: Tables, a: BulkAction, g: GameId): Change {
    BulkChange(a, if g in t.items then t.items[g].tags else [])
  }

  lemma AskedAccepted(t: Tables, a: BulkAction, g: GameId)
    requires Sound(t) && g in t.items
    ensures WriteAccepted(t, g, AskedOf(t, a, g), Patch) <==> !FieldRefused(t, g, AskedOf(t, a, g))
  {
    ItemIsSound(t, g);
    hide FieldRefused, EditTags;
    assert Text.Trim("") == "";
  }

  lemma NotInLibrary(t: Tables, g: GameId, a: BulkAction, tags: seq<string>, now: Instant)
    requires g !in t.items
    ensures ApplyChange(t, g, BulkChange(a, tags), Patch, now) == Err(NotFound)
  {
    hide NextState, EditTags;
  }

  lemma {:induction false} BulkAnswers(b: Bulking, ids: seq<GameId>, a: BulkAction, now: Instant)
    requires Ready(b.tables) && DistinctIds(ids)
    ensures var r := BulkEach(b, ids, a, now);
            && (r.Ok? <==> forall g | g in ids && g in b.tables.items ::
                  !FieldRefused(b.tables, g, AskedOf(b.tables, a, g)))
            && (r.Ok? ==> |b.snaps| <= |r.value.snaps| && (|b.snaps| < |r.value.snaps| <==> SomeIn(b.tables, ids)))
    decreases ids
  {
    hide Sound, ApplyChange, TakeSnapshot, KeepsOrder, AllLinked, Linked, BulkChange, Evolves, Covered, FieldRefused,
         WriteAccepted;
    if ids != [] {
      var g := ids[0];
      var tags := if g in b.tables.items then b.tables.items[g].tags else [];
      var w := ApplyChange(b.tables, g, BulkChange(a, tags), Patch, now);
      assert forall h | h in ids[1..] :: h != g;
      assert forall h :: h in ids <==> h == g || h in ids[1..];
      LinkedAt(b.tables, g);
      if g !in b.tables.items {
        NotInLibrary(b.tables, g, a, tags, now);
        BulkAnswers(b, ids[1..], a, now);
      } else {
        WriteAnswers(b.tables, g, AskedOf(b.tables, a, g), Patch, now);
        AskedAccepted(b.tables, a, g);
        PatchedIsThere(b.tables, g, BulkChange(a, tags), now);
        if w.Ok? {
          ApplyChangeMoves(b.tables, g, BulkChange(a, tags), Patch, now);
          InOrderElsewhere(b.tables, w.value, g);
          BulkAnswers(Bulking(w.value, b.snaps + [TakeSnapshot(b.tables, g)]), ids[1..], a, now);
          forall h | h in ids[1..]
            ensures FieldRefused(w.value, h, AskedOf(w.value, a, h)) ==
                    FieldRefused(b.tables, h, AskedOf(b.tables, a, h))
          {
            assert RowOf(w.value, h) == RowOf(b.tables, h);
            AskedByRow(b.tables, w.value, a, h);
            RefusedByRow(b.tables, w.value, h, AskedOf(b.tables, a, h));
          }
        }
      }
    }
  }

  lemma AskedByRow(t: Tables, t': Tables, a: BulkAction, g: GameId)
    requires RowOf(t, g) == RowOf(t', g)
    ensures AskedOf(t, a, g) == AskedOf(t', a, g) && (g in t.items <==> g in t'.items)
  {
    hide EditTags;
  }

  // ---- Imports ------------------------------------------------------------

  /** An entry asks for a change that can be written, or for none. */
  ghost predicate EntryAccepted(t: Tables, e: ImportEntry) {
    && !e.status.BadStatus?
    && if e.game in t.items then
         FillChange(t.items[e.game], e) == NO_CHANGE || WriteAccepted(t, e.game, FillChange(t.items[e.game], e), Upsert)
       else
         && !FieldRefused(t, e.game, AddChange(e))
         && (e.game in t.games ==>
               && !e.startedAt.BadDate? && !e.completedAt.BadDate?
               && !(0 < e.minutes < UsableMinutes(e.sessions, |e.sessions|)
                    && e.status.Is?
                    && (e.status.status.Playing? || e.status.status.Completed? || e.status.status.Abandoned?)))
  }

  /** An entry is for a game it adds or fills something in. */
  ghost predicate EntryChanges(t: Tables, e: ImportEntry) {
    if e.game in t.items then FillChange(t.items[e.game], e) != NO_CHANGE else e.game in t.games
  }

  lemma EntryAnswers(t: Tables, e: ImportEntry, now: Instant)
    requires Sound(t) && RunsLinked(t, e.game)
    ensures var r := ImportOne(t, e, now);
            && (r.Ok? <==> EntryAccepted(t, e))
            && (r.Ok? ==> (r.value.snap.Some? <==> EntryChanges(t, e)))
  {
    hide Sound, Linked, TakeSnapshot, FillChange, AddChange, ApplyChange, AddImportedSessions, FieldRefused, Text.Trim,
         WriteAccepted;
    var g := e.game;
    if e.status.BadStatus? {
    } else if g in t.items {
      ItemIsSound(t, g);
      WriteAnswers(t, g, FillChange(t.items[g], e), Upsert, now);
      ExistingIsFound(t, g, FillChange(t.items[g], e), now);
    } else {
      var ch := AddChange(e);
      AddAsks(e);
      WriteAnswers(t, g, ch, Upsert, now);
      NewAccepted(t, g, ch);
      ApplyChangeRefuses(t, g, ch, Upsert, now);
      UsableIsImported(e.sessions);
      if ApplyChange(t, g, ch, Upsert, now).Ok? {
        ImportRefused(t, e, now);
      } else {
        NoGame(t, g, ch, now);
      }
    }
  }

  lemma AddAsks(e: ImportEntry)
    ensures var ch := AddChange(e);
            && ch.sessionNote == "" && ch.playedOn == NoDay && ch.minutesDelta.None? && ch.completion.None?
            && (ch.minutes.Some? ==> ch.minutes.value > 0)
            && (ch.startedAt.BadTime? <==> e.startedAt.BadDate?)
            && (ch.completedAt.BadTime? <==> e.completedAt.BadDate?)
  {
  }

  lemma NewAccepted(t: Tables, g: GameId, ch: Change)
    requires ch.sessionNote == "" && ch.playedOn == NoDay && ch.minutesDelta.None? && ch.completion.None?
    requires ch.minutes.Some? ==> ch.minutes.value > 0
    ensures WriteAccepted(t, g, ch, Upsert) <==>
            g in t.games && !FieldRefused(t, g, ch) && !ch.startedAt.BadTime? && !ch.completedAt.BadTime?
  {
    hide FieldRefused;
    assert Text.Trim("") == "";
  }

  /** A game the catalog does not have is only reported once the fields are right. */
  lemma NoGame(t: Tables, g: GameId, ch: Change, now: Instant)
    requires g !in t.items && ch.playedOn == NoDay && ch.minutesDelta.None? && ch.completion.None?
    ensures ApplyChange(t, g, ch, Upsert, now) == Err(GameNotFound) <==> !FieldRefused(t, g, ch) && g !in t.games
  {
    FieldsChecked(t, g, ch);
    if NextState(RowOf(t, g), ch).Err? { FieldErrorsApart(NextState(RowOf(t, g), ch).error); }
    hide NextState, FieldRefused, FieldError, ApplyChange;
    GameNotFoundIsCheck(t, g, ch, now);
  }

  /** Both depend on the game's own row and its place in the catalog alone. */
  lemma EntryByRow(t: Tables, t': Tables, e: ImportEntry)
    requires RowOf(t, e.game) == RowOf(t', e.game) && t.games == t'.games
    ensures EntryAccepted(t, e) == EntryAccepted(t', e) && EntryChanges(t, e) == EntryChanges(t', e)
  {
    hide FieldRefused, FillChange, AddChange, Text.Trim;
    assert e.game in t.items <==> e.game in t'.items;
    RefusedByRow(t, t', e.game, AddChange(e));
    if e.game in t.items { RefusedByRow(t, t', e.game, FillChange(t.items[e.game], e)); }
  }

  lemma {:induction false} EachAnswers(b: Batch, hs: seq<ImportEntry>, now: Instant)
    requires Ready(b.tables) && DistinctGames(hs)
    ensures var r := ImportEach(b, hs, now);
            && (r.Ok? <==> forall h | h in hs :: EntryAccepted(b.tables, h))
            && (r.Ok? ==> |b.snaps| <= |r.value.snaps|
                          && (|b.snaps| < |r.value.snaps| <==> exists h | h in hs :: EntryChanges(b.tables, h)))
    decreases hs
  {
    hide ImportOne, Sound, Evolves, Covered, AllInOrder, AllLinked, Moves, Linked, EntryAccepted, EntryChanges;
    if hs != [] {
      var h0, rest := hs[0], hs[1..];
      LinkedAt(b.tables, h0.game);
      EntryAnswers(b.tables, h0, now);
      assert forall h :: h in hs <==> h == h0 || h in rest;
      if ImportOne(b.tables, h0, now).Ok? {
        ImportOneMoves(b.tables, h0, now);
        var b1 := Counted(b, ImportOne(b.tables, h0, now).value);
        OneReady(b, h0, now);
        forall i, j | 0 <= i < j < |rest| ensures rest[i].game != rest[j].game {
          assert rest[i] == hs[i + 1] && rest[j] == hs[j + 1];
        }
        EachAnswers(b1, rest, now);
        forall h | h in rest
          ensures EntryAccepted(b1.tables, h) == EntryAccepted(b.tables, h)
          ensures EntryChanges(b1.tables, h) == EntryChanges(b.tables, h)
        {
          var i :| 0 <= i < |rest| && rest[i] == h;
          assert hs[i + 1] == h && h.game != h0.game;
          MovedRow(b.tables, b1.tables, h0.game, h.game);
          EntryByRow(b.tables, b1.tables, h);
        }
      }
    }
  }

  lemma OneReady(b: Batch, h: ImportEntry, now: Instant)
    requires Ready(b.tables) && ImportOne(b.tables, h, now).Ok?
    ensures var b1 := Counted(b, ImportOne(b.tables, h, now).value);
            Ready(b1.tables) && Moves(b.tables, b1.tables, h.game)
            && b1.tables == ImportOne(b.tables, h, now).value.tables
  {
    hide ImportOne, Sound, Moves, Linked, InOrder, Evolves, Covered;
    LinkedAt(b.tables, h.game);
    ImportOneMoves(b.tables, h, now);
    var b1 := Counted(b, ImportOne(b.tables, h, now).value);
    MovedKeeps(b.tables, b1.tables, h.game);
    MovesAdvances(b.tables, b1.tables, h.game);
  }

  lemma MovedRow(t: Tables, t': Tables, g: GameId, h: GameId)
    requires Moves(t, t', g) && h != g
    ensures RowOf(t, h) == RowOf(t', h) && t.games == t'.games
  {
  }

  // ---- The journal --------------------------------------------------------

  lemma LogAnswers(db: Db, g: GameId, day: Day, minutes: int, source: Source, token: nat, now: Instant)
    requires Inv(db)
    ensures LogOnCurrent(db, g, day, minutes, source, token, now).Ok? <==>
            && g in db.tables.items && minutes != 0 && (minutes > 0 || source == Adjust)
            && (minutes <= 1440 || source in {Legacy, Adjust, Steam, Import})
            && Free(db, token, now)
  {
    hide Sound, LogsGood, AllLinked, SaveUndo, TakeSnapshot;
    var t := db.tables;
    FreshSessionId(t);
    LinkedAt(t, g);
    if g in t.items {
      var s := Session(g, t.items[g].current, day, minutes, "", source, now);
      hide Free;
      if InsertSession(t, t.sessSeq + 1, s, now).Ok? {
        SaveAnswers(db, InsertSession(t, t.sessSeq + 1, s, now).value, [TakeSnapshot(t, g)], token, now);
      }
    }
  }

  /** The fields of a session edit are right. */
  ghost predicate SessionAccepted(s: Session, e: SessionEdit) {
    && (e.playedOn.Some? ==> e.playedOn.value.ADay?)
    && (e.minutes.Some? ==> 0 < e.minutes.value && (e.minutes.value <= 1440 || s.source in {Legacy, Import, Steam}))
    && (e.note.Some? ==> |e.note.value| <= 500)
  }

  /** Right fields are never refused by a CHECK: not by the session's, nor by that of its run's total. */
  lemma EditAnswers(db: Db, id: nat, e: SessionEdit, token: nat, now: Instant)
    requires Inv(db)
    ensures EditSession(db, id, e, token, now).Ok? <==>
            id in db.tables.sessions && SessionAccepted(db.tables.sessions[id], e) && Free(db, token, now)
  {
    hide Sound, LogsGood, AllLinked, SaveUndo, TakeSnapshot, UpdateSession, Text.Trim, Free;
    var t := db.tables;
    if id in t.sessions && SessionAccepted(t.sessions[id], e) {
      var s := t.sessions[id];
      var day := if e.playedOn.Some? then e.playedOn.value.day else s.playedOn;
      var minutes := if e.minutes.Some? then e.minutes.value else s.minutes;
      var note := if e.note.Some? then Text.Trim(e.note.value) else s.note;
      UpdateWorks(t, id, day, minutes, note);
      SaveAnswers(db, UpdateSession(t, id, day, minutes, note).value, [TakeSnapshot(t, s.game)], token, now);
    }
  }

  lemma UpdateWorks(t: Tables, id: nat, day: Day, minutes: int, note: string)
    requires Sound(t) && id in t.sessions
    requires var s := t.sessions[id];
             minutes == s.minutes || (0 < minutes && (minutes <= 1440 || s.source in {Legacy, Import, Steam}))
    ensures UpdateSession(t, id, day, minutes, note).Ok?
  {
    hide Sound;
    SessionIsSound(t, id);
    var s := t.sessions[id];
    if s.run.Some? { RunIsSound(t, s.run.value); }
  }

  /** The fields of a playthrough edit are right. */
  ghost predicate RunAccepted(e: RunEdit) {
    && (e.platform.Some? ==> Text.Bytes(e.platform.value) <= 64)
    && (e.startedOn.Some? ==> !e.startedOn.value.BadDay?) && (e.finishedOn.Some? ==> !e.finishedOn.value.BadDay?)
    && (e.completion.Some? ==> !e.completion.value.BadCompletion?)
    && (e.rating.Some? ==> 0 <= e.rating.value <= 100)
    && (e.note.Some? ==> |e.note.value| <= 10000)
  }

  lemma RunAnswers(db: Db, id: nat, e: RunEdit, token: nat, now: Instant)
    ensures EditPlaythrough(db, id, e, token, now).Ok? <==>
            id in db.tables.runs && RunAccepted(e) && Free(db, token, now)
    ensures DeletePlaythrough(db, id, token, now).Ok? <==> id in db.tables.runs && Free(db, token, now)
    ensures RemoveSession(db, id, token, now).Ok? <==> id in db.tables.sessions && Free(db, token, now)
  {
    hide TakeSnapshot, UpdateItem, UpdateRun, EditedRun, ClearCurrent, DeleteRun, DeleteSession, Text.Bytes;
  }

  // ---- Every operation ----------------------------------------------------

  lemma BulkAccepted(db: Db, a: BulkAction, token: nat, now: Instant)
    requires Inv(db)
    ensures Bulk(db, a, token, now).Ok? <==> Accepted(db, DoBulk(a, token, now))
  {
    hide Sound, LogsGood, AllLinked, DeleteEach, BulkEach, SaveUndo, DedupeIds, FieldRefused, AskedOf, Free, SomeIn;
    var t, ids := db.tables, DedupeIds(a.games, {});
    DedupedMembers(a.games, {});
    DedupedDistinct(a.games, {});
    DistinctSize(ids);
    var chosen := set g | g in a.games && g > 0;
    assert Ids(ids) == chosen;
    InIds(t, ids, chosen);
    var d := Deleting(t, db.timer, []);
    DeletedSnaps(d, ids);
    var r := DeleteEach(d, ids, false).value;
    SaveAnswers(db.(timer := r.timer), r.tables, r.snaps, token, now);
    SameLog(db, r.timer, token, now);
    BulkAnswers(Bulking(t, []), ids, a, now);
    if BulkEach(Bulking(t, []), ids, a, now).Ok? {
      var b := BulkEach(Bulking(t, []), ids, a, now).value;
      SaveAnswers(db, b.tables, b.snaps, token, now);
    }
    assert forall g :: g in ids <==> g in chosen;
  }

  lemma InIds(t: Tables, ids: seq<GameId>, chosen: set<GameId>)
    requires Ids(ids) == chosen
    ensures SomeIn(t, ids) <==> exists g | g in chosen :: g in t.items
    ensures |ids| == 0 <==> chosen == {}
  {
    if ids != [] { assert ids[0] in chosen; }
  }

  lemma SameLog(db: Db, timer: Option<RunningTimer>, token: nat, now: Instant)
    ensures Free(db.(timer := timer), token, now) == Free(db, token, now)
  {
  }

  lemma ImportAccepted(db: Db, es: seq<ImportEntry>, id: nat, now: Instant)
    requires Inv(db)
    ensures RunImport(db, es, id, now).Ok? <==> Accepted(db, DoImport(es, id, now))
  {
    hide Sound, LogsGood, AllLinked, ImportEach, EntryAccepted, EntryChanges;
    var t := db.tables;
    HeadsDistinct(es, {});
    HeadsAreFirsts(es, {});
    EachAnswers(Batch(t, [], 0, 0, 0), Heads(es, {}), now);
    hide Heads;
    forall i | IsFirst(es, i) ensures es[i] in Heads(es, {}) {}
  }

  /** What must hold of the library for a step to be carried out, rather than refused with nothing changed. */
  ghost predicate Accepted(db: Db, s: Step) {
    var t := db.tables;
    match s
    case DoWrite(g, ch, mode, token, now) => WriteAccepted(t, g, ch, mode) && Free(db, token, now)
    case DoReplace(g, ch, token, now) => WriteAccepted(t, g, ReplaceChange(ch), Upsert) && Free(db, token, now)
    case DoDelete(g, token, now) => g in t.items && Free(db, token, now)
    case DoBulk(a, token, now) =>
      var chosen := set g | g in a.games && g > 0;
      && 1 <= |chosen| <= 500
      && (!a.remove ==>
            && (a.status.Some? || a.addTags != [] || a.removeTags != [])
            && forall g | g in chosen && g in t.items :: !FieldRefused(t, g, AskedOf(t, a, g)))
      && ((exists g | g in chosen :: g in t.items) ==> Free(db, token, now))
    case DoImport(es, id, now) =>
      && 1 <= |es| <= 10000
      && (forall i | IsFirst(es, i) :: EntryAccepted(t, es[i]))
      && ((exists i | IsFirst(es, i) :: EntryChanges(t, es[i])) ==> id !in db.batches)
    case DoUndo(token, now) => token in db.undo && now - 900 <= db.undo[token].createdAt
    case DoUndoImport(id, now) => id in db.batches && !db.batches[id].undone
    case DoLogSynced(g, m, day, source, token, now) =>
      && g in t.items && m > 0 && day.ADay? && (m <= 1440 || source in {Legacy, Adjust, Steam, Import})
      && Free(db, token, now)
    case DoRemoveSession(id, token, now) => id in t.sessions && Free(db, token, now)
    case DoEditSession(id, e, token, now) =>
      id in t.sessions && SessionAccepted(t.sessions[id], e) && Free(db, token, now)
    case DoEditPlaythrough(id, e, token, now) => id in t.runs && RunAccepted(e) && Free(db, token, now)
    case DoDeletePlaythrough(id, token, now) => id in t.runs && Free(db, token, now)
    case DoStartTimer(g, now) => g in t.items
    case _ => true
  }

  /**
   * At the end of every history a step is carried out exactly when the library meets its conditions,
   * and is refused with nothing changed otherwise.
   */
  lemma StepAnswers(steps: seq<Step>, s: Step)
    ensures var db := Play(EMPTY, steps);
            && (Attempt(db, s).Ok? <==> Accepted(db, s))
            && (!Accepted(db, s) ==> Next(db, s) == db)
  {
    hide Play, Inv, Write, DeleteMany, Bulk, RunImport, Undo, UndoImport, LogOnCurrent, RemoveSession, EditSession,
         EditPlaythrough, DeletePlaythrough, StopTimer, WriteAccepted, Free, SessionAccepted, RunAccepted;
    var db := Play(EMPTY, steps);
    EmptyHolds();
    HistoryInvariant(EMPTY, steps);
    match s
    case DoWrite(g, ch, mode, token, now) => WriteCommits(db, g, ch, mode, token, now);
    case DoReplace(g, ch, token, now) => WriteCommits(db, g, ReplaceChange(ch), Upsert, token, now);
    case DoDelete(g, token, now) => DeleteCommits(db, g, token, now);
    case DoBulk(a, token, now) => BulkAccepted(db, a, token, now);
    case DoImport(es, id, now) => ImportAccepted(db, es, id, now);
    case DoUndo(token, now) => UndoAnswers(steps, token, now);
    case DoUndoImport(id, now) => BatchUndoAnswers(steps, id, now);
    case DoLogSynced(g, m, day, source, token, now) =>
      if day.ADay? { LogAnswers(db, g, day.day, m, source, token, now); }
    case DoRemoveSession(id, token, now) => RunAnswers(db, id, NO_RUN_EDIT, token, now);
    case DoEditSession(id, e, token, now) => EditAnswers(db, id, e, token, now);
    case DoEditPlaythrough(id, e, token, now) => RunAnswers(db, id, e, token, now);
    case DoDeletePlaythrough(id, token, now) => RunAnswers(db, id, NO_RUN_EDIT, token, now);
    case _ =>
  }

  lemma WriteCommits(db: Db, g: GameId, ch: Change, mode: Mode, token: nat, now: Instant)
    requires Inv(db)
    ensures Write(db, g, ch, mode, token, now).Ok? <==> WriteAccepted(db.tables, g, ch, mode) && Free(db, token, now)
  {
    hide Sound, LogsGood, ApplyChange, WriteAccepted, SaveUndo, TakeSnapshot, Free;
    LinkedAt(db.tables, g);
    WriteAnswers(db.tables, g, ch, mode, now);
    var w := ApplyChange(db.tables, g, ch, mode, now);
    if w.Ok? { SaveAnswers(db, w.value, [TakeSnapshot(db.tables, g)], token, now); }
  }

  lemma DeleteCommits(db: Db, g: GameId, token: nat, now: Instant)
    ensures DeleteMany(db, [g], true, token, now).Ok? <==> g in db.tables.items && Free(db, token, now)
  {
    hide TakeSnapshot, DeleteItem;
    assert [g][1..] == [];
    var timer := if db.timer.Some? && db.timer.value.game == g then None else db.timer;
    var d := Deleting(DeleteItem(db.tables, g), timer, [TakeSnapshot(db.tables, g)]);
    if g in db.tables.items {
      assert [] + [TakeSnapshot(db.tables, g)] == [TakeSnapshot(db.tables, g)];
      assert DeleteEach(d, [], true) == Ok(d);
      assert DeleteEach(Deleting(db.tables, db.timer, []), [g], true) == Ok(d);
    }
  }
}
