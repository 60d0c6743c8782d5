// Every operation on a library as one transaction (internal/library: write.go,
// bulk.go, journal.go, importbatch.go, undo.go), the undo and import logs they
// keep, and what holds over all their runs.
module LibraryHistory {
  import opened Prelude
  import opened LibraryTypes
  import opened LibraryTables
  import opened LibraryLedger
  import opened LibraryWrites
  import opened LibraryUndo
  import opened LibraryImport
  import opened LibrarySync
  import Text

  datatype UndoEntry = UndoEntry(snaps: seq<Snapshot>, createdAt: Instant)
  datatype BatchEntry = BatchEntry(snaps: seq<Snapshot>, undone: bool)
  datatype RunningTimer = RunningTimer(game: GameId, startedAt: Instant)

  /** The tables with the undo log, the import batches and the session timer. */
  datatype Db = Db(
    tables: Tables, timer: Option<RunningTimer>, undo: map<nat, UndoEntry>, batches: map<nat, BatchEntry>)

  // ---- The undo log -------------------------------------------------------

  /** saveUndo: drop what has expired, then record the snapshots under a new token. */
  function SaveUndo(db: Db, t: Tables, snaps: seq<Snapshot>, token: nat, now: Instant): Result<Db, Error> {
    if snaps == [] then Ok(db.(tables := t))
    else
      var kept := map k | k in db.undo && db.undo[k].createdAt >= now - UNDO_WINDOW :: db.undo[k];
      if token in kept then Err(Constraint)
      else Ok(db.(tables := t, undo := kept[token := UndoEntry(snaps, now)]))
  }

  function Undo(db: Db, token: nat, now: Instant): Result<Db, Error> {
    if token !in db.undo || db.undo[token].createdAt < now - UNDO_WINDOW then Err(UndoExpired)
    else
      var r := RestoreAll(db.tables, db.undo[token].snaps, now);
      if r.Err? then Err(r.error) else Ok(db.(tables := r.value, undo := db.undo - {token}))
  }

  function UndoImport(db: Db, id: nat, now: Instant): Result<Db, Error> {
    if id !in db.batches || db.batches[id].undone then Err(NotFound)
    else
      var r := RestoreAll(db.tables, db.batches[id].snaps, now);
      if r.Err? then Err(r.error)
      else Ok(db.(tables := r.value, batches := db.batches[id := db.batches[id].(undone := true)]))
  }

  function PruneUndo(db: Db, now: Instant): Db {
    db.(undo := map k | k in db.undo && db.undo[k].createdAt >= now - UNDO_WINDOW :: db.undo[k])
  }

  // ---- Item writes --------------------------------------------------------

  function Write(db: Db, g: GameId, ch: Change, mode: Mode, token: nat, now: Instant): Result<Db, Error> {
    var w := ApplyChange(db.tables, g, ch, mode, now);
    if w.Err? then Err(w.error) else SaveUndo(db, w.value, [TakeSnapshot(db.tables, g)], token, now)
  }

  /** Replace: what a change omits is reset instead of kept. */
  function ReplaceChange(ch: Change): Change {
    ch.(status := Some(if ch.status.Some? then ch.status.value else BlankStatus),
        rating := Some(if ch.rating.Some? then ch.rating.value else 0),
        minutes := if ch.minutes.None? && ch.minutesDelta.None? then Some(0) else ch.minutes,
        tags := Some(if ch.tags.Some? then ch.tags.value else []),
        notes := Some(if ch.notes.Some? then ch.notes.value else ""),
        platforms := if ch.platforms.None? && ch.platform.None? then Some([]) else ch.platforms,
        medium := Some(if ch.medium.Some? then ch.medium.value else AMedium(NoMedium)))
  }

  // ---- Deleting and bulk edits --------------------------------------------

  datatype Deleting = Deleting(tables: Tables, timer: Option<RunningTimer>, snaps: seq<Snapshot>)

  function DeleteEach(d: Deleting, ids: seq<GameId>, requireAll: bool): Result<Deleting, Error>
    decreases ids
  {
    if ids == [] then Ok(d)
    else if ids[0] !in d.tables.items then
      if requireAll then Err(NotFound) else DeleteEach(d, ids[1..], requireAll)
    else
      var timer := if d.timer.Some? && d.timer.value.game == ids[0] then None else d.timer;
      DeleteEach(Deleting(DeleteItem(d.tables, ids[0]), timer, d.snaps + [TakeSnapshot(d.tables, ids[0])]), ids[1..],
                 requireAll)
  }

  function DeleteMany(db: Db, ids: seq<GameId>, requireAll: bool, token: nat, now: Instant): Result<Db, Error> {
    var d := DeleteEach(Deleting(db.tables, db.timer, []), ids, requireAll);
    if d.Err? then Err(d.error) else SaveUndo(db.(timer := d.value.timer), d.value.tables, d.value.snaps, token, now)
  }

  datatype BulkAction = BulkAction(
    games: seq<GameId>, status: Option<StatusText>, addTags: seq<string>, removeTags: seq<string>, remove: bool)

  function DedupeIds(ids: seq<GameId>, seen: set<GameId>): seq<GameId>
    decreases ids
  {
    if ids == [] then []
    else if ids[0] > 0 && ids[0] !in seen then [ids[0]] + DedupeIds(ids[1..], seen + {ids[0]})
    else DedupeIds(ids[1..], seen)
  }

  /** editTags: the stored tags and the added ones, less the removed ones. */
  function EditTags(cur: seq<string>, add: seq<string>, remove: seq<string>): seq<string> {
    Text.Distinct(cur + add, Text.Keys(remove))
  }

  function BulkChange(a: BulkAction, tags: seq<string>): Change {
    NO_CHANGE.(status := a.status,
               tags := if a.addTags != [] || a.removeTags != [] then Some(EditTags(tags, a.addTags, a.removeTags))
    else None)
  }

  datatype Bulking = Bulking(tables: Tables, snaps: seq<Snapshot>)

  function BulkEach(b: Bulking, ids: seq<GameId>, a: BulkAction, now: Instant): Result<Bulking, Error>
    decreases ids
  {
    if ids == [] then Ok(b)
    else
      var g := ids[0];
      var tags := if g in b.tables.items then b.tables.items[g].tags else [];
      var w := ApplyChange(b.tables, g, BulkChange(a, tags), Patch, now);
      if w == Err(NotFound) then BulkEach(b, ids[1..], a, now)
      else if w.Err? then Err(w.error)
      else BulkEach(Bulking(w.value, b.snaps + [TakeSnapshot(b.tables, g)]), ids[1..], a, now)
  }

  function Bulk(db: Db, a: BulkAction, token: nat, now: Instant): Result<Db, Error> {
    var ids := DedupeIds(a.games, {});
    if ids == [] || |ids| > MAX_BULK then Err(Invalid("invalid_selection"))
    else if a.remove then DeleteMany(db, ids, false, token, now)
    else if a.status.None? && a.addTags == [] && a.removeTags == [] then Err(Invalid("invalid_action"))
    else
      var b := BulkEach(Bulking(db.tables, []), ids, a, now);
      if b.Err? then Err(b.error) else SaveUndo(db, b.value.tables, b.value.snaps, token, now)
  }

  function RunImport(db: Db, es: seq<ImportEntry>, id: nat, now: Instant): Result<Db, Error> {
    var b := ImportAll(db.tables, es, now);
    if b.Err? then Err(b.error)
    else if b.value.snaps == [] then Ok(db.(tables := b.value.tables))
    else if id in db.batches then Err(Constraint)
    else Ok(db.(tables := b.value.tables, batches := db.batches[id := BatchEntry(b.value.snaps, false)]))
  }

  // ---- The journal --------------------------------------------------------

  /** Adds a session on the current run; LogSynced and StopTimer end in this. */
  function LogOnCurrent(db: Db, g: GameId, day: Day, minutes: int, source: Source, token: nat,
                        now: Instant): Result<Db, Error> {
    var t := db.tables;
    if g !in t.items then Err(NotFound)
    else
      var w := InsertSession(t, t.sessSeq + 1, Session(g, t.items[g].current, day, minutes, "", source, now), now);
      if w.Err? then Err(w.error) else SaveUndo(db, w.value, [TakeSnapshot(t, g)], token, now)
  }

  function LogSynced(db: Db, g: GameId, minutes: int, playedOn: DayText, source: Source, token: nat,
                     now: Instant): Result<Db, Error> {
    if minutes <= 0 then Err(Invalid("invalid_minutes"))
    else if !playedOn.ADay? then Err(Invalid("invalid_date"))
    else LogOnCurrent(db, g, playedOn.day, minutes, source, token, now)
  }

  function RemoveSession(db: Db, id: nat, token: nat, now: Instant): Result<Db, Error> {
    if id !in db.tables.sessions then Err(NotFound)
    else SaveUndo(db, DeleteSession(db.tables, id), [TakeSnapshot(db.tables, db.tables.sessions[id].game)], token, now)
  }

  datatype SessionEdit = SessionEdit(playedOn: Option<DayText>, minutes: Option<int>, note: Option<string>)

  predicate BadMinutes(e: SessionEdit, s: Session) {
    e.minutes.Some? && (e.minutes.value <= 0
                        || (e.minutes.value > MAX_SESSION_MINUTES && s.source !in {Legacy, Import, Steam}))
  }

  function EditSession(db: Db, id: nat, e: SessionEdit, token: nat, now: Instant): Result<Db, Error> {
    if id !in db.tables.sessions then Err(NotFound)
    else
      var s := db.tables.sessions[id];
      if e.playedOn.Some? && !e.playedOn.value.ADay? then Err(Invalid("invalid_date"))
      else if BadMinutes(e, s) then Err(Invalid("invalid_minutes"))
      else if e.note.Some? && |e.note.value| > MAX_SESSION_NOTE_CHARS then Err(Invalid("invalid_note"))
      else
        var w := UpdateSession(db.tables, id,
                               if e.playedOn.Some? then e.playedOn.value.day else s.playedOn,
                               if e.minutes.Some? then e.minutes.value else s.minutes,
                               if e.note.Some? then Text.Trim(e.note.value) else s.note);
        if w.Err? then Err(w.error) else SaveUndo(db, w.value, [TakeSnapshot(db.tables, s.game)], token, now)
  }

  /** A playthrough edit: absent keeps, a blank day clears. */
  datatype RunEdit = RunEdit(
    platform: Option<string>, startedOn: Option<DayText>, finishedOn: Option<DayText>,
    completion: Option<CompletionText>, rating: Option<int>, note: Option<string>)

  function DayValue(v: DayText): Option<Day> {
    if v.ADay? then Some(v.day) else None
  }

  /** The code of the first field that is refused. */
  function RunEditError(e: RunEdit): Option<string> {
    if e.platform.Some? && Text.Bytes(e.platform.value) > MAX_PLATFORM_BYTES then Some("invalid_platform")
    else if e.startedOn.Some? && e.startedOn.value.BadDay? then Some("invalid_date")
    else if e.finishedOn.Some? && e.finishedOn.value.BadDay? then Some("invalid_date")
    else if e.completion.Some? && e.completion.value.BadCompletion? then Some("invalid_completion")
    else if e.rating.Some? && (e.rating.value < 0 || e.rating.value > 100) then Some("invalid_rating")
    else if e.note.Some? && |e.note.value| > MAX_NOTES_CHARS then Some("invalid_note")
    else None
  }

  function EditedRun(r: Run, e: RunEdit): Run {
    r.(platform := if e.platform.Some? then Text.Trim(e.platform.value) else r.platform,
       startedOn := if e.startedOn.Some? then DayValue(e.startedOn.value) else r.startedOn,
       finishedOn := if e.finishedOn.Some? then DayValue(e.finishedOn.value) else r.finishedOn,
       completion := if e.completion.Some?
                     then (if e.completion.value.ACompletion? then Some(e.completion.value.completion) else None)
                     else r.completion,
       rating := if e.rating.Some? then (if e.rating.value == 0 then None else Some(e.rating.value)) else r.rating,
       note := if e.note.Some? then e.note.value else r.note)
  }

  const NO_RUN_EDIT := RunEdit(None, None, None, None, None, None)

  /** UpdatePlaythrough: the edit, then a touch of the item so that the revision moves. */
  function EditPlaythrough(db: Db, id: nat, e: RunEdit, token: nat, now: Instant): Result<Db, Error> {
    var t := db.tables;
    if id !in t.runs then Err(NotFound)
    else if RunEditError(e).Some? then Err(Invalid(RunEditError(e).value))
    else
      var g := t.runs[id].game;
      var t1 := if e == NO_RUN_EDIT || g !in t.items then t
                else UpdateItem(UpdateRun(t, id, EditedRun(t.runs[id], e)), g, t.items[g]);
      SaveUndo(db, t1, [TakeSnapshot(t, g)], token, now)
  }

  function ClearCurrent(t: Tables, g: GameId, id: nat): Tables {
    if g in t.items && t.items[g].current == Some(id) then UpdateItem(t, g, t.items[g].(current := None)) else t
  }

  function DeletePlaythrough(db: Db, id: nat, token: nat, now: Instant): Result<Db, Error> {
    var t := db.tables;
    if id !in t.runs then Err(NotFound)
    else
      var g := t.runs[id].game;
      SaveUndo(db, ClearCurrent(DeleteRun(t, id), g, id), [TakeSnapshot(t, g)], token, now)
  }

  function StartTimer(db: Db, g: GameId, now: Instant): Result<Db, Error> {
    if g !in db.tables.items then Err(NotFound)
    else Ok(db.(timer := Some(RunningTimer(g, now)), tables := WithState(db.tables)))
  }

  /** The minutes a stopped timer logs: the corrected ones or the elapsed ones, between a minute and a day. */
  function TimerMinutes(minutes: int, startedAt: Instant, now: Instant): int {
    var m := if minutes <= 0 then (now - startedAt + 30) / 60 else minutes;
    if m < 1 then 1 else if m > MAX_SESSION_MINUTES then MAX_SESSION_MINUTES else m
  }

  /** StopTimer: the timer stops even when logging its session then fails. */
  function StopTimer(db: Db, log: bool, minutes: int, playedOn: DayText, token: nat,
                     now: Instant): (Db, Option<Error>) {
    if db.timer.None? then (db, Some(NoTimer))
    else
      var stopped := db.(timer := None);
      if !log then (stopped, None)
      else
        var w := LogOnCurrent(stopped, db.timer.value.game, Today(playedOn, now),
                              TimerMinutes(minutes, db.timer.value.startedAt, now), Timer, token, now);
        if w.Err? then (stopped, Some(w.error)) else (w.value, None)
  }

  /** UpdatePrefs, of which the tables show that the user's state row exists from then on. */
  function WithState(t: Tables): Tables {
    t.(rev := Some(RevOf(t)))
  }

  /** Journal IDs that other users' rows take. */
  function MoreIds(t: Tables, runs: nat, sessions: nat): Tables {
    t.(runSeq := t.runSeq + runs, sessSeq := t.sessSeq + sessions)
  }

  // ---- Steps of a history -------------------------------------------------

  datatype Step =
    | DoWrite(game: GameId, change: Change, mode: Mode, token: nat, now: Instant)
    | DoReplace(game: GameId, change: Change, token: nat, now: Instant)
    | DoDelete(game: GameId, token: nat, now: Instant)
    | DoBulk(action: BulkAction, token: nat, now: Instant)
    | DoImport(entries: seq<ImportEntry>, id: nat, now: Instant)
    | DoUndo(token: nat, now: Instant)
    | DoUndoImport(id: nat, now: Instant)
    | DoLogSynced(game: GameId, minutes: int, playedOn: DayText, source: Source, token: nat, now: Instant)
    | DoRemoveSession(id: nat, token: nat, now: Instant)
    | DoEditSession(id: nat, sessionEdit: SessionEdit, token: nat, now: Instant)
    | DoEditPlaythrough(id: nat, runEdit: RunEdit, token: nat, now: Instant)
    | DoDeletePlaythrough(id: nat, token: nat, now: Instant)
    | DoStartTimer(game: GameId, now: Instant)
    | DoStopTimer(log: bool, minutes: int, playedOn: DayText, token: nat, now: Instant)
    | DoPrune(now: Instant)
    | DoPrefs
    | CatalogPut(game: GameId, entry: Game)
    | OtherUsers(runs: nat, sessions: nat)

  function Attempt(db: Db, s: Step): Result<Db, Error> {
    match s
    case DoWrite(g, ch, mode, token, now) => Write(db, g, ch, mode, token, now)
    case DoReplace(g, ch, token, now) => Write(db, g, ReplaceChange(ch), Upsert, token, now)
    case DoDelete(g, token, now) => DeleteMany(db, [g], true, token, now)
    case DoBulk(a, token, now) => Bulk(db, a, token, now)
    case DoImport(es, id, now) => RunImport(db, es, id, now)
    case DoUndo(token, now) => Undo(db, token, now)
    case DoUndoImport(id, now) => UndoImport(db, id, now)
    case DoLogSynced(g, m, day, source, token, now) => LogSynced(db, g, m, day, source, token, now)
    case DoRemoveSession(id, token, now) => RemoveSession(db, id, token, now)
    case DoEditSession(id, e, token, now) => EditSession(db, id, e, token, now)
    case DoEditPlaythrough(id, e, token, now) => EditPlaythrough(db, id, e, token, now)
    case DoDeletePlaythrough(id, token, now) => DeletePlaythrough(db, id, token, now)
    case DoStartTimer(g, now) => StartTimer(db, g, now)
    case DoStopTimer(log, m, day, token, now) => Ok(StopTimer(db, log, m, day, token, now).0)
    case DoPrune(now) => Ok(PruneUndo(db, now))
    case DoPrefs => Ok(db.(tables := WithState(db.tables)))
    case CatalogPut(g, game) => Ok(db.(tables := PutGame(db.tables, g, game)))
    case OtherUsers(runs, sessions) => Ok(db.(tables := MoreIds(db.tables, runs, sessions)))
  }

  /** A failed step is rolled back. */
  function Next(db: Db, s: Step): Db {
    var r := Attempt(db, s);
    if r.Ok? then r.value else db
  }

  function Play(db: Db, steps: seq<Step>): Db
    decreases steps
  {
    if steps == [] then db else Play(Next(db, steps[0]), steps[1..])
  }
}
