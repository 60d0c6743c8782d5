// Imports (internal/library/importbatch.go): games brought in as one batch,
// filling what is empty and never overwriting what is there.
module LibraryImport {
  import opened Prelude
  import opened LibraryTypes
  import opened LibraryTables
  import opened LibraryLedger
  import opened LibraryWrites
  import opened LibraryUndo
  import Text

  /** A date text: too short to be one, ten blanks, a day, or unreadable. */
  datatype DateText = NoDate | BlankDate | OnDate(day: Day) | BadDate

  datatype ImportedSession = ImportedSession(playedOn: DayText, minutes: int, note: string)

  datatype ImportEntry = ImportEntry(
    game: GameId, status: StatusText, rating: int, minutes: int, notes: string, tags: seq<string>,
    platform: string, startedAt: DateText, completedAt: DateText, sessions: seq<ImportedSession>)

  /** The first ten characters of a date text, as parseTimestamp will read them. */
  function DateChange(v: DateText): TimeText {
    match v
    case NoDate => Keep
    case BlankDate => Clear
    case OnDate(d) => At(d * SECONDS_PER_DAY)
    case BadDate => BadTime
  }

  function ClampRating(r: int): int {
    if r < 0 then 0 else if r > 100 then 100 else r
  }

  /** editTags without removals: what is there stays in front, what is new follows. */
  function AddTags(cur: seq<string>, add: seq<string>): seq<string> {
    Text.Distinct(cur + add, {})
  }

  /** What a new game's entry asks for. */
  function AddChange(e: ImportEntry): Change {
    NO_CHANGE.(
    status := Some(if e.status.Is? then e.status else Is(Backlog)),
    rating := if e.rating > 0 then Some(ClampRating(e.rating)) else None,
    minutes := if e.minutes > 0 then Some(e.minutes) else None,
    notes := if e.notes != "" then Some(e.notes) else None,
    tags := if e.tags != [] then Some(e.tags) else None,
    platforms := if e.platform != "" then Some([e.platform]) else None,
    startedAt := DateChange(e.startedAt), completedAt := DateChange(e.completedAt))
  }

  /** What an entry fills in on a game already there. */
  function FillChange(r: Row, e: ImportEntry): Change {
    NO_CHANGE.(
    rating := if r.rating == 0 && e.rating > 0 then Some(ClampRating(e.rating)) else None,
    minutes := if e.minutes > r.minutes then Some(e.minutes) else None,
    notes := if r.notes == "" && e.notes != "" then Some(e.notes) else None,
    tags := if e.tags != [] && |AddTags(r.tags, e.tags)| != |r.tags| then Some(AddTags(r.tags, e.tags)) else None,
    platforms := if r.owned == [] && e.platform != "" then Some([e.platform]) else None,
    startedAt := if r.startedAt.None? then DateChange(e.startedAt) else Keep,
    completedAt := if r.completedAt.None? then DateChange(e.completedAt) else Keep)
  }

  /** importChange: what an entry changes, or nothing. */
  function ImportChange(prev: Option<Row>, e: ImportEntry): Option<Change> {
    match prev
    case None => Some(AddChange(e))
    case Some(r) => if FillChange(r, e) == NO_CHANGE then None else Some(FillChange(r, e))
  }

  // ---- A new game's sessions ----------------------------------------------

  predicate Counts(s: ImportedSession) {
    s.minutes > 0 && s.playedOn.ADay?
  }

  function ImportedMinutes(ss: seq<ImportedSession>): int {
    if ss == [] then 0 else (if Counts(ss[0]) then ss[0].minutes else 0) + ImportedMinutes(ss[1..])
  }

  function InsertImported(t: Tables, g: GameId, ss: seq<ImportedSession>, now: Instant): Result<Tables, Error>
    decreases ss
  {
    if ss == [] then Ok(t)
    else if !Counts(ss[0]) then InsertImported(t, g, ss[1..], now)
    else
      var s := Session(g, None, ss[0].playedOn.day, ss[0].minutes, Text.Trim(ss[0].note), Import, now);
      var one := InsertSession(t, t.sessSeq + 1, s, now);
      if one.Err? then one else InsertImported(one.value, g, ss[1..], now)
  }

  function Adjustments(t: Tables, g: GameId): set<nat> {
    set id | id in t.sessions && t.sessions[id].game == g && t.sessions[id].source == Adjust
  }

  /** The newest adjustment gives up the minutes that came in as sessions. */
  function ShrinkAdjustment(t: Tables, g: GameId, sum: int): Result<Tables, Error> {
    var ids := Ascending(Adjustments(t, g));
    if sum == 0 || ids == [] then Ok(t)
    else
      var id := ids[|ids| - 1];
      if id !in t.sessions then Ok(t)
      else
        var adj := t.sessions[id];
        if adj.minutes == sum then Ok(LibraryTables.DeleteSession(t, id))
        else UpdateSession(t, id, adj.playedOn, adj.minutes - sum, adj.note)
  }

  /** addImportedSessions. */
  function AddImportedSessions(t: Tables, e: ImportEntry, now: Instant): Result<Tables, Error> {
    var logged := InsertImported(t, e.game, e.sessions, now);
    if logged.Err? then logged else ShrinkAdjustment(logged.value, e.game, ImportedMinutes(e.sessions))
  }

  // ---- A batch ------------------------------------------------------------

  /** One entry's outcome: the tables after, and the snapshot when it changed something. */
  datatype Outcome = Outcome(tables: Tables, snap: Option<Snapshot>, added: bool)

  function ImportOne(t: Tables, e: ImportEntry, now: Instant): Result<Outcome, Error> {
    var prev := RowOf(t, e.game);
    var ch := ImportChange(prev, e);
    if e.status.BadStatus? then Err(Invalid("invalid_status"))
    else if ch.None? then Ok(Outcome(t, None, false))
    else
      var w := ApplyChange(t, e.game, ch.value, Upsert, now);
      if w == Err(GameNotFound) then Ok(Outcome(t, None, false))
      else if w.Err? then Err(w.error)
      else if prev.Some? then Ok(Outcome(w.value, Some(TakeSnapshot(t, e.game)), false))
      else
        var s := AddImportedSessions(w.value, e, now);
        if s.Err? then Err(s.error) else Ok(Outcome(s.value, Some(TakeSnapshot(t, e.game)), true))
  }

  /** The entries an import looks at: the first of each game, with a game at all. */
  function Heads(es: seq<ImportEntry>, seen: set<GameId>): seq<ImportEntry>
    decreases es
  {
    if es == [] then []
    else if es[0].game == 0 || es[0].game in seen then Heads(es[1..], seen)
    else [es[0]] + Heads(es[1..], seen + {es[0].game})
  }

  datatype Batch = Batch(tables: Tables, snaps: seq<Snapshot>, added: nat, updated: nat, same: nat)

  function Counted(b: Batch, o: Outcome): Batch {
    match o.snap
    case None => b.(tables := o.tables, same := b.same + 1)
    case Some(s) =>
      var b1 := b.(tables := o.tables, snaps := b.snaps + [s]);
      if o.added then b1.(added := b1.added + 1) else b1.(updated := b1.updated + 1)
  }

  function ImportEach(b: Batch, hs: seq<ImportEntry>, now: Instant): Result<Batch, Error>
    decreases hs
  {
    if hs == [] then Ok(b)
    else
      var o := ImportOne(b.tables, hs[0], now);
      if o.Err? then Err(o.error) else ImportEach(Counted(b, o.value), hs[1..], now)
  }

  /** Import, up to the record of the batch. */
  function ImportAll(t: Tables, es: seq<ImportEntry>, now: Instant): Result<Batch, Error> {
    if es == [] then Err(Invalid("empty_import"))
    else if |es| > MAX_IMPORT then Err(Invalid("too_many"))
    else ImportEach(Batch(t, [], 0, 0, 0), Heads(es, {}), now)
  }

  // ---- The imported total -------------------------------------------------

  /** What inserting sessions without a run leaves: only their minutes are added. */
  ghost predicate SessionsAdded(t: Tables, t1: Tables, g: GameId, sum: int)
    requires g in t.items
  {
    && Moves(t, t1, g) && g in t1.items && RevOf(t) <= RevOf(t1)
    && t1.items[g] == t.items[g].(minutes := t.items[g].minutes + sum, updatedAt := t1.items[g].updatedAt,
                                  rev := t1.items[g].rev)
    && t1.runs == t.runs
    && (forall id | id in t.sessions :: id in t1.sessions && t1.sessions[id] == t.sessions[id])
    && (forall id | id in t1.sessions && id !in t.sessions ::
          t1.sessions[id].source == Import && t1.sessions[id].run == None)
  }

  lemma SessionWithoutRun(t: Tables, s: Session, now: Instant)
    requires Sound(t) && s.game in t.items && s.run.None? && s.minutes > 0 && s.source == Import
    ensures var one := InsertSession(t, t.sessSeq + 1, s, now);
            one.Ok? && SessionsAdded(t, one.value, s.game, s.minutes)
  {
    hide Sound, Moves, MinutesLogged;
    InsertSessionOk(t, t.sessSeq + 1, s, now);
    FreshSessionId(t);
    ItemIsSound(t, s.game);
    hide InsertSession;
    NewSessionLogged(t, s, now);
    LoggedWithoutRun(t, InsertSession(t, t.sessSeq + 1, s, now).value, s);
  }

  lemma LoggedWithoutRun(t: Tables, t1: Tables, s: Session)
    requires s.game in t.items && s.minutes != 0 && s.source == Import && s.run.None?
    requires MinutesLogged(t, s.game, t1, None, s.minutes, Import)
    ensures SessionsAdded(t, t1, s.game, s.minutes)
  {
    hide Moves;
    MovedRev(t, t1, s.game);
    forall id | id in t.runs ensures t1.runs[id] == t.runs[id] {}
  }

  lemma MovedRev(a: Tables, b: Tables, g: GameId)
    requires Moves(a, b, g)
    ensures RevOf(a) <= RevOf(b)
  {
  }

  lemma {:induction false} InsertImportedAdds(t: Tables, g: GameId, ss: seq<ImportedSession>, now: Instant)
    requires Sound(t) && g in t.items
    ensures var r := InsertImported(t, g, ss, now); r.Ok? && SessionsAdded(t, r.value, g, ImportedMinutes(ss))
    ensures 0 <= ImportedMinutes(ss)
    decreases ss
  {
    hide Sound, Moves, InsertSession;
    MovesReflexive(t, g);
    if ss == [] {
    } else if !Counts(ss[0]) {
      InsertImportedAdds(t, g, ss[1..], now);
    } else {
      var s := Session(g, None, ss[0].playedOn.day, ss[0].minutes, Text.Trim(ss[0].note), Import, now);
      SessionWithoutRun(t, s, now);
      var t1 := InsertSession(t, t.sessSeq + 1, s, now).value;
      MovedKeeps(t, t1, g);
      InsertImportedAdds(t1, g, ss[1..], now);
      MovesTransitive(t, t1, InsertImported(t1, g, ss[1..], now).value, g);
    }
  }

  ghost predicate IsAdjustment(t: Tables, g: GameId, id: nat, total: int)
    requires g in t.items && id in t.sessions
  {
    && Adjustments(t, g) == {id} && t.sessions[id].game == g
    && t.sessions[id].minutes == total && t.sessions[id].run == t.items[g].current
  }

  /** The sessions of a game just added: the one adjustment its total became, on the run it opened. */
  ghost predicate JustAdded(t: Tables, g: GameId, total: int) {
    && g in t.items && t.items[g].minutes == total && Linked(t, g)
    && (total == 0 ==> Adjustments(t, g) == {})
    && (total != 0 ==> exists id :: id in t.sessions && IsAdjustment(t, g, id, total))
    && (t.items[g].current.Some? ==>
          t.items[g].current.value in t.runs && t.runs[t.items[g].current.value].minutes == total)
  }

  lemma AddedHasAdjustment(t: Tables, g: GameId, ch: Change, now: Instant)
    requires Sound(t) && g !in t.items && ch.minutesDelta.None? && ApplyChange(t, g, ch, Upsert, now).Ok?
    ensures JustAdded(ApplyChange(t, g, ch, Upsert, now).value, g, if ch.minutes.Some? then ch.minutes.value else 0)
  {
    hide ApplyChange, Stages, Sound, Moves, GoodState, SavedRow, Adjustments;
    var st, t1, t2, c, t3 := WriteStages(t, g, ch, Upsert, now);
    CheckIsGood(t, g, ch, Upsert);
    StagesExist(t, g, ch, now, st, t1, t2, c, t3);
    StagesKeep(t, g, ch, now, st, t1, t2, c, t3);
    SavedTotal(t, g, st, ch, now);
    hide Check;
    forall id | id in t.sessions ensures t.sessions[id].game != g { SessionIsSound(t, id); }
    forall id | id in t.runs ensures t.runs[id].game != g { RunIsSound(t, id); }
    var d := NewTotal(t2.items[g].minutes, ch) - t2.items[g].minutes;
    AdjustmentsAfterLog(t2, g, t3, c, d);
    if d != 0 { assert IsAdjustment(t3, g, t2.sessSeq + 1, d); }
  }

  lemma SavedTotal(t: Tables, g: GameId, st: ItemState, ch: Change, now: Instant)
    requires g !in t.items
    ensures SavedRow(t, g, st, ch, now).minutes == 0
  {
  }

  lemma AdjustmentsAfterLog(t2: Tables, g: GameId, t3: Tables, c: Option<nat>, d: int)
    requires g in t2.items && MinutesLogged(t2, g, t3, c, d, Adjust)
    requires forall id | id in t2.sessions :: t2.sessions[id].game != g
    ensures Adjustments(t3, g) == if d == 0 then {} else {t2.sessSeq + 1}
  {
    hide Moves;
  }

  lemma DeleteSessionRow(t: Tables, id: nat)
    requires id in t.sessions && t.sessions[id].game in t.items
    ensures var g := t.sessions[id].game;
            var t' := DeleteSession(t, id);
            && g in t'.items && RevOf(t') == RevOf(t) + 1
            && t'.items[g] == t.items[g].(minutes := Max(0, t.items[g].minutes - t.sessions[id].minutes),
                                          rev := t'.items[g].rev)
  {
  }

  lemma UpdateSessionRow(t: Tables, id: nat, playedOn: Day, minutes: int, note: string)
    requires id in t.sessions && t.sessions[id].game in t.items
    requires UpdateSession(t, id, playedOn, minutes, note).Ok?
    ensures var g := t.sessions[id].game;
            var t' := UpdateSession(t, id, playedOn, minutes, note).value;
            && g in t'.items && RevOf(t') == RevOf(t) + 1
            && t'.items[g] == t.items[g].(minutes := Max(0, t.items[g].minutes - t.sessions[id].minutes + minutes),
                                          rev := t'.items[g].rev)
  {
  }

  lemma UpdateSessionOk(t: Tables, id: nat, playedOn: Day, minutes: int, note: string)
    requires id in t.sessions
    ensures var s := t.sessions[id];
            UpdateSession(t, id, playedOn, minutes, note).Ok? <==>
            && SessionCheck(s.(playedOn := playedOn, minutes := minutes, note := note))
            && (s.run.Some? && s.run.value in t.runs ==> 0 <= Max(0, t.runs[s.run.value].minutes - s.minutes) + minutes)
  {
    hide AddItemMinutes, AddRunMinutes, UpdateRun, SessionCheck;
    var s := t.sessions[id];
    var t0 := t.(sessions := t.sessions[id := s.(playedOn := playedOn, minutes := minutes, note := note)]);
    AddItemMinutesKeepsJournal(t0, s.game, minutes - s.minutes);
    AddRunMinutesOnly(AddItemMinutes(t0, s.game, minutes - s.minutes), s.run, -s.minutes);
  }

  /** The row of g keeps everything but its minutes, and the runs keep their dates. */
  ghost predicate OnlyMinutes(t: Tables, t1: Tables, g: GameId)
    requires g in t.items
  {
    && Moves(t, t1, g) && RevOf(t) <= RevOf(t1) && g in t1.items
    && t1.items[g] == t.items[g].(minutes := t1.items[g].minutes, updatedAt := t1.items[g].updatedAt,
                                  rev := t1.items[g].rev)
    && t1.runs.Keys == t.runs.Keys
    && (forall id | id in t.runs :: t1.runs[id] == t.runs[id].(minutes := t1.runs[id].minutes))
  }

  lemma OnlyMinutesKeepsOpen(t: Tables, t1: Tables, g: GameId)
    requires g in t.items && OnlyMinutes(t, t1, g) && Linked(t, g)
    ensures Linked(t1, g) && KeepsOrder(t, t1, g)
  {
    hide Moves;
  }

  lemma OnlyMinutesTransitive(t: Tables, t1: Tables, t2: Tables, g: GameId)
    requires g in t.items && g in t1.items && OnlyMinutes(t, t1, g) && OnlyMinutes(t1, t2, g)
    ensures OnlyMinutes(t, t2, g)
  {
    hide Moves;
    MovesTransitive(t, t1, t2, g);
  }

  lemma DeleteOnlyMinutes(t: Tables, id: nat)
    requires Sound(t) && id in t.sessions
    ensures t.sessions[id].game in t.items && OnlyMinutes(t, DeleteSession(t, id), t.sessions[id].game)
  {
    hide Sound, Moves;
    SessionIsSound(t, id);
    DeleteSessionMoves(t, id);
    DeleteSessionMinutes(t, id);
    DeleteSessionRow(t, id);
    hide DeleteSession;
  }

  lemma UpdateOnlyMinutes(t: Tables, id: nat, playedOn: Day, minutes: int, note: string)
    requires Sound(t) && id in t.sessions && UpdateSession(t, id, playedOn, minutes, note).Ok?
    ensures t.sessions[id].game in t.items
    ensures OnlyMinutes(t, UpdateSession(t, id, playedOn, minutes, note).value, t.sessions[id].game)
  {
    hide Sound, Moves;
    SessionIsSound(t, id);
    UpdateSessionMoves(t, id, playedOn, minutes, note);
    UpdateSessionMinutes(t, id, playedOn, minutes, note);
    UpdateSessionRow(t, id, playedOn, minutes, note);
    hide UpdateSession;
  }

  lemma NewestAdjustment(t: Tables, g: GameId, id: nat)
    requires Adjustments(t, g) == {id}
    ensures var ids := Ascending(Adjustments(t, g)); ids != [] && ids[|ids| - 1] == id
  {
    var ids := Ascending(Adjustments(t, g));
    AscendingLists(Adjustments(t, g));
    assert id in ids && ids[|ids| - 1] in ids;
  }

  /** Shrinking the only adjustment: refused exactly when the run it is on would go below zero. */
  lemma ShrinkAfterInsert(t: Tables, g: GameId, id: nat, total: int, sum: int)
    requires Sound(t) && g in t.items && id in t.sessions && Adjustments(t, g) == {id}
    requires t.sessions[id].minutes == total && 0 < total && 0 <= sum && t.items[g].minutes == total + sum
    requires t.sessions[id].run.Some? ==>
               t.sessions[id].run.value in t.runs && t.runs[t.sessions[id].run.value].minutes == total
    ensures var r := ShrinkAdjustment(t, g, sum);
            && (r.Err? <==> total < sum && t.sessions[id].run.Some?)
            && (r.Err? ==> r == Err(Constraint))
            && (r.Ok? ==> OnlyMinutes(t, r.value, g) && r.value.items[g].minutes == total)
  {
    hide Sound, Moves, Ascending, DeleteSession, UpdateSession;
    NewestAdjustment(t, g, id);
    assert id in Adjustments(t, g);
    var adj := t.sessions[id];
    if sum == 0 {
      MovesReflexive(t, g);
    } else if adj.minutes == sum {
      DeleteOnlyMinutes(t, id);
      DeleteSessionRow(t, id);
    } else {
      UpdateSessionOk(t, id, adj.playedOn, adj.minutes - sum, adj.note);
      UpdateErr(t, id, adj.playedOn, adj.minutes - sum, adj.note);
      if UpdateSession(t, id, adj.playedOn, adj.minutes - sum, adj.note).Ok? {
        UpdateOnlyMinutes(t, id, adj.playedOn, adj.minutes - sum, adj.note);
        UpdateSessionRow(t, id, adj.playedOn, adj.minutes - sum, adj.note);
      }
    }
  }

  lemma UpdateErr(t: Tables, id: nat, playedOn: Day, minutes: int, note: string)
    ensures var r := UpdateSession(t, id, playedOn, minutes, note); r.Err? ==> r == Err(Constraint)
  {
  }

  lemma AddedMeansOnlyMinutes(t: Tables, t1: Tables, g: GameId, sum: int)
    requires g in t.items && SessionsAdded(t, t1, g, sum)
    ensures OnlyMinutes(t, t1, g) && Adjustments(t1, g) == Adjustments(t, g)
  {
    hide Moves;
  }

  /**
   * A new game's imported sessions: its total stays the imported total when
   * that is positive. They are refused exactly when they sum past a positive
   * total and the entry opened a run, whose minutes would go below zero.
   */
  lemma ImportedSessionsKeepTotal(t: Tables, e: ImportEntry, total: int, now: Instant)
    requires Sound(t) && JustAdded(t, e.game, total) && 0 <= total
    ensures var r := AddImportedSessions(t, e, now);
            var sum := ImportedMinutes(e.sessions);
            && (r.Err? <==> 0 < total < sum && t.items[e.game].current.Some?)
            && (r.Err? ==> r == Err(Constraint))
            && (r.Ok? ==>
                  && OnlyMinutes(t, r.value, e.game) && Linked(r.value, e.game) && KeepsOrder(t, r.value, e.game)
                  && r.value.items[e.game].minutes == (if total > 0 then total else sum))
  {
    hide Sound, Moves, InsertImported, ShrinkAdjustment, Adjustments, Linked, InOrder;
    var g := e.game;
    InsertImportedAdds(t, g, e.sessions, now);
    var t1 := InsertImported(t, g, e.sessions, now).value;
    var sum := ImportedMinutes(e.sessions);
    AddedMeansOnlyMinutes(t, t1, g, sum);
    MovedKeeps(t, t1, g);
    OnlyMinutesKeepsOpen(t, t1, g);
    if total > 0 {
      var id :| id in t.sessions && IsAdjustment(t, g, id, total);
      ShrinkAfterInsert(t1, g, id, total, sum);
      if AddImportedSessions(t, e, now).Ok? {
        var t2 := AddImportedSessions(t, e, now).value;
        OnlyMinutesTransitive(t, t1, t2, g);
        OnlyMinutesKeepsOpen(t, t2, g);
      }
    } else {
      ShrinkNothing(t1, g, sum);
    }
  }

  lemma ShrinkNothing(t: Tables, g: GameId, sum: int)
    requires Adjustments(t, g) == {}
    ensures ShrinkAdjustment(t, g, sum) == Ok(t)
  {
  }

  // ---- The row an entry leaves --------------------------------------------

  function SetTime(v: DateText, unset: Option<Instant>): Option<Instant> {
    match v
    case OnDate(d) => Some(d * SECONDS_PER_DAY)
    case NoDate => unset
    case _ => None
  }

  /** An entry for a game already there: what was recorded stays, what was empty is filled. */
  ghost predicate Filled(r: Row, e: ImportEntry, r': Row) {
    && r'.status == r.status && r'.createdAt == r.createdAt && r'.medium == r.medium
    && r'.rating == (if r.rating == 0 && e.rating > 0 then ClampRating(e.rating) else r.rating)
    && r'.minutes == Max(r.minutes, e.minutes)
    && r'.notes == (if r.notes == "" then e.notes else r.notes)
    && r'.tags == AddTags(r.tags, e.tags)
    && r'.owned == (if r.owned == [] && e.platform != "" then Text.Distinct([e.platform], {}) else r.owned)
    && r'.startedAt == (if r.startedAt.Some? then r.startedAt else SetTime(e.startedAt, None))
    && r'.completedAt == (if r.completedAt.Some? then r.completedAt else SetTime(e.completedAt, None))
  }

  /** An entry for a new game: everything it says, and no more. */
  ghost predicate Added(e: ImportEntry, r': Row, now: Instant) {
    && r'.status == (if e.status.Is? then e.status.status else Backlog)
    && r'.rating == (if e.rating > 0 then ClampRating(e.rating) else 0)
    && r'.minutes == (if e.minutes > 0 then e.minutes else ImportedMinutes(e.sessions))
    && r'.notes == e.notes
    && r'.tags == Text.Distinct(e.tags, {})
    && r'.owned == (if e.platform != "" then Text.Distinct([e.platform], {}) else [])
    && r'.startedAt == SetTime(e.startedAt, if r'.status.Playing? then Some(now) else None)
    && r'.completedAt == SetTime(e.completedAt, if r'.status.Completed? then Some(now) else None)
  }

  lemma AddTagsKeeps(r: Row, e: ImportEntry)
    requires Text.Tidy(r.tags)
    ensures r.tags <= AddTags(r.tags, e.tags)
    ensures |AddTags(r.tags, e.tags)| == |r.tags| ==> AddTags(r.tags, e.tags) == r.tags
    ensures e.tags == [] ==> AddTags(r.tags, e.tags) == r.tags
  {
    Text.DistinctExtends(r.tags, e.tags);
    if e.tags == [] {
      assert Text.Keys(e.tags) == {};
    }
  }

  lemma FillState(r: Row, e: ImportEntry, st: ItemState, now: Instant)
    requires RowGood(r) && NextState(Some(r), FillChange(r, e)) == Ok(st)
    requires !FillChange(r, e).startedAt.BadTime? && !FillChange(r, e).completedAt.BadTime?
    ensures Filled(r, e, ChangedRow(r, st, FillChange(r, e), now).(minutes := NewTotal(r.minutes, FillChange(r, e))))
  {
    hide Text.Tidy, Text.Distinct, Text.Trim;
    AddTagsKeeps(r, e);
    Text.TidyIsDistinct(r.tags);
    Text.TidyIsDistinct(r.owned);
    if FillChange(r, e).tags.Some? {
      Text.DistinctIsTidy(r.tags + e.tags, {});
      Text.TidyIsDistinct(AddTags(r.tags, e.tags));
    }
  }

  lemma NoFillIsFilled(r: Row, e: ImportEntry)
    requires RowGood(r) && FillChange(r, e) == NO_CHANGE
    ensures Filled(r, e, r)
  {
    hide Text.Tidy, Text.Distinct;
    AddTagsKeeps(r, e);
  }

  lemma AddState(e: ImportEntry, st: ItemState, now: Instant)
    requires NextState(None, AddChange(e)) == Ok(st) && !e.status.BadStatus?
    requires !AddChange(e).startedAt.BadTime? && !AddChange(e).completedAt.BadTime?
    ensures Added(e, NewRow(st, AddChange(e), now).(minutes := if e.minutes > 0 then e.minutes
                  else ImportedMinutes(e.sessions)), now)
  {
    hide Text.Tidy;
  }

  // ---- One entry ----------------------------------------------------------

  /** What importing one entry does, whichever way it goes. */
  ghost predicate Imported(t: Tables, e: ImportEntry, o: Outcome, now: Instant) {
    var g := e.game;
    && Moves(t, o.tables, g) && RunsLinked(o.tables, g) && KeepsOrder(t, o.tables, g) && RevOf(t) <= RevOf(o.tables)
    && (o.snap.None? ==> o.tables == t)
    && (o.snap.Some? ==>
          && o.snap.value == TakeSnapshot(t, g) && RevOf(t) < RevOf(o.tables) && g in o.tables.items
          && (o.added <==> g !in t.items))
    && (g in t.items ==> g in o.tables.items && Filled(t.items[g], e, o.tables.items[g]))
    && (g !in t.items && g in o.tables.items ==> Added(e, o.tables.items[g], now))
    && (g !in t.items && g in t.games ==> g in o.tables.items)
  }

  lemma CheckTimes(t: Tables, g: GameId, ch: Change, mode: Mode)
    ensures Check(t, g, ch, mode).Ok? ==> !ch.startedAt.BadTime? && !ch.completedAt.BadTime?
    ensures Check(t, g, ch, mode) == Err(GameNotFound) ==> g !in t.games
  {
    hide NextState;
    NextStateError(RowOf(t, g), ch);
  }

  lemma NextStateError(prev: Option<Row>, ch: Change)
    ensures NextState(prev, ch).Err? ==> NextState(prev, ch).error.Invalid?
  {
  }

  /** Only the check can miss the game. */
  lemma GameNotFoundIsCheck(t: Tables, g: GameId, ch: Change, now: Instant)
    ensures ApplyChange(t, g, ch, Upsert, now) == Err(GameNotFound) <==> Check(t, g, ch, Upsert) == Err(GameNotFound)
  {
    hide Check, SaveItem, UpdateRuns;
    if Check(t, g, ch, Upsert).Ok? {
      var saved := SaveItem(t, g, Check(t, g, ch, Upsert).value, ch, now);
      if saved.Ok? && g in saved.value.items {
        var (t2, run) := UpdateRuns(saved.value, g, RowOf(t, g), Check(t, g, ch, Upsert).value, ch, now);
        if g in t2.items { LogMinutesError(t2, g, run, ch, now); }
      }
    }
  }

  lemma LogMinutesError(t: Tables, g: GameId, run: Option<nat>, ch: Change, now: Instant)
    requires g in t.items
    ensures LogMinutes(t, g, run, ch, now) != Err(GameNotFound)
  {
  }

  lemma FillOne(t: Tables, e: ImportEntry, now: Instant)
    requires Sound(t) && e.game in t.items && RunsLinked(t, e.game) && ImportOne(t, e, now).Ok?
    ensures Imported(t, e, ImportOne(t, e, now).value, now)
  {
    hide Sound, Moves, Linked, InOrder, Filled, Added, FillChange, NextState, TakeSnapshot, Text.Tidy;
    var g := e.game;
    var r := t.items[g];
    ItemIsSound(t, g);
    MovesReflexive(t, g);
    var ch := FillChange(r, e);
    if ch == NO_CHANGE {
      NoFillIsFilled(r, e);
    } else {
      GameNotFoundIsCheck(t, g, ch, now);
      CheckTimes(t, g, ch, Upsert);
      CheckIsGood(t, g, ch, Upsert);
      hide Check;
      if ApplyChange(t, g, ch, Upsert, now).Ok? {
        ApplyChangeMoves(t, g, ch, Upsert, now);
        ApplyChangeRow(t, g, ch, Upsert, now);
        var st := Check(t, g, ch, Upsert).value;
        FillState(r, e, st, now);
        var t' := ApplyChange(t, g, ch, Upsert, now).value;
        hide ApplyChange;
        FilledByFields(r, e, ChangedRow(r, st, ch, now).(minutes := NewTotal(r.minutes, ch)), t'.items[g]);
      }
    }
  }

  lemma FilledByFields(r: Row, e: ImportEntry, a: Row, b: Row)
    requires Filled(r, e, a) && b == a.(current := b.current, rev := b.rev)
    ensures Filled(r, e, b)
  {
    hide Text.Distinct;
  }

  lemma AddedByFields(e: ImportEntry, a: Row, b: Row, now: Instant)
    requires Added(e, a, now) && b == a.(current := b.current, rev := b.rev, updatedAt := b.updatedAt)
    ensures Added(e, b, now)
  {
    hide Text.Distinct;
  }

  lemma AddTotal(e: ImportEntry)
    ensures AddChange(e).minutesDelta.None?
    ensures NewTotal(0, AddChange(e)) == Max(0, e.minutes)
    ensures (if AddChange(e).minutes.Some? then AddChange(e).minutes.value else 0) == Max(0, e.minutes)
  {
  }

  lemma AddOne(t: Tables, e: ImportEntry, now: Instant)
    requires Sound(t) && e.game !in t.items && ImportOne(t, e, now).Ok?
    ensures Imported(t, e, ImportOne(t, e, now).value, now)
  {
    hide Sound, Moves, Linked, InOrder, Filled, Added, AddChange, NextState, TakeSnapshot, JustAdded,
         AddImportedSessions, NewTotal;
    var g := e.game;
    MovesReflexive(t, g);
    var ch := AddChange(e);
    AddTotal(e);
    GameNotFoundIsCheck(t, g, ch, now);
    CheckTimes(t, g, ch, Upsert);
    CheckIsGood(t, g, ch, Upsert);
    hide Check;
    if ApplyChange(t, g, ch, Upsert, now).Ok? {
      ApplyChangeMoves(t, g, ch, Upsert, now);
      ApplyChangeRow(t, g, ch, Upsert, now);
      AddedHasAdjustment(t, g, ch, now);
      var st := Check(t, g, ch, Upsert).value;
      var t1 := ApplyChange(t, g, ch, Upsert, now).value;
      hide ApplyChange;
      MovedKeeps(t, t1, g);
      AddState(e, st, now);
      ImportedSessionsKeepTotal(t1, e, Max(0, e.minutes), now);
      var t2 := AddImportedSessions(t1, e, now).value;
      OnlyMinutesMoves(t1, t2, g);
      MovesTransitive(t, t1, t2, g);
      AddedByFields(e, NewRow(st, ch, now).(minutes := t2.items[g].minutes), t2.items[g], now);
    }
  }

  /** Playing, finishing and dropping open a run; the other statuses do not. */
  predicate OpensARun(s: Status) {
    s.Playing? || s.Completed? || s.Abandoned?
  }

  lemma FirstRun(t: Tables, g: GameId, st: ItemState, ch: Change, now: Instant)
    requires Sound(t) && g in t.items && t.items[g].current.None? && ch.edition.None?
    ensures UpdateRuns(t, g, None, st, ch, now).1.Some? <==> OpensARun(st.status)
  {
    hide OpenRun, Sound, Moves;
    OpenRunMoves(t, g, Primary(st.platforms), FirstStart(t.items[g], None, ch, now), now);
    OpenRunMoves(t, g, Primary(st.platforms), DayOf(t.items[g].startedAt), now);
  }

  lemma AddedOpensRun(t: Tables, g: GameId, ch: Change, now: Instant)
    requires Sound(t) && g !in t.items && ch.edition.None? && ch.status.Some? && ch.status.value.Is?
    requires ApplyChange(t, g, ch, Upsert, now).Ok?
    ensures g in ApplyChange(t, g, ch, Upsert, now).value.items
    ensures ApplyChange(t, g, ch, Upsert, now).value.items[g].current.Some? <==> OpensARun(ch.status.value.status)
  {
    hide ApplyChange, Stages, Sound, Moves, GoodState, Linked, InOrder;
    var st, t1, t2, c, t3 := WriteStages(t, g, ch, Upsert, now);
    CheckIsGood(t, g, ch, Upsert);
    CheckStatus(t, g, ch, Upsert);
    StagesExist(t, g, ch, now, st, t1, t2, c, t3);
    StagesKeep(t, g, ch, now, st, t1, t2, c, t3);
    MovedKeeps(t, t1, g);
    FirstRun(t1, g, st, ch, now);
    StagesRuns(t, g, ch, now, st, t1, t2, c, t3);
  }

  lemma StagesRuns(t: Tables, g: GameId, ch: Change, now: Instant, st: ItemState, t1: Tables, t2: Tables,
                   c: Option<nat>, t3: Tables)
    requires g in t1.items && g !in t.items && Stages(t, g, ch, now, st, t1, t2, c, t3)
    ensures UpdateRuns(t1, g, None, st, ch, now) == (t2, c)
  {
    hide SaveItem, UpdateRuns, LogMinutes;
  }

  /**
   * An otherwise acceptable new game is refused by a CHECK exactly when its
   * sessions sum past its positive total and its status opens a run.
   */
  lemma ImportRefused(t: Tables, e: ImportEntry, now: Instant)
    requires Sound(t) && e.game !in t.items && !e.status.BadStatus?
    requires ApplyChange(t, e.game, AddChange(e), Upsert, now).Ok?
    ensures ImportOne(t, e, now).Err? <==>
            && 0 < e.minutes < ImportedMinutes(e.sessions)
            && OpensARun(if e.status.Is? then e.status.status else Backlog)
  {
    hide Sound, Moves, Linked, InOrder, TakeSnapshot, JustAdded, AddImportedSessions, NewTotal, ApplyChange;
    AddTotal(e);
    ApplyChangeMoves(t, e.game, AddChange(e), Upsert, now);
    AddedHasAdjustment(t, e.game, AddChange(e), now);
    AddedOpensRun(t, e.game, AddChange(e), now);
    MovedKeeps(t, ApplyChange(t, e.game, AddChange(e), Upsert, now).value, e.game);
    ImportedSessionsKeepTotal(ApplyChange(t, e.game, AddChange(e), Upsert, now).value, e, Max(0, e.minutes), now);
  }

  lemma OnlyMinutesMoves(t: Tables, t1: Tables, g: GameId)
    requires g in t.items && OnlyMinutes(t, t1, g)
    ensures Moves(t, t1, g) && RevOf(t) <= RevOf(t1) && g in t1.items
  {
  }

  lemma ImportOneMoves(t: Tables, e: ImportEntry, now: Instant)
    requires Sound(t) && RunsLinked(t, e.game) && ImportOne(t, e, now).Ok?
    ensures Imported(t, e, ImportOne(t, e, now).value, now)
  {
    if e.game in t.items { FillOne(t, e, now); } else { AddOne(t, e, now); }
  }

  // ---- Importing twice ----------------------------------------------------

  /** A second look at this entry finds nothing to do. */
  ghost predicate Settled(t: Tables, e: ImportEntry) {
    && !e.status.BadStatus?
    && (e.game in t.items ==> FillChange(t.items[e.game], e) == NO_CHANGE)
    && (e.game !in t.items ==> Check(t, e.game, AddChange(e), Upsert) == Err(GameNotFound))
  }

  /** The entry has no blank text for something the game still lacks. */
  ghost predicate Quiet(t: Tables, e: ImportEntry) {
    var prev := RowOf(t, e.game);
    e.game in t.games || e.game in t.items ==>
      && !(e.platform != "" && Text.Trim(e.platform) == "" && (prev.None? || prev.value.owned == []))
      && !(e.startedAt.BlankDate? && (prev.None? || prev.value.startedAt.None?))
      && !(e.completedAt.BlankDate? && (prev.None? || prev.value.completedAt.None?))
  }

  lemma FillChangeEmpty(r: Row, e: ImportEntry)
    ensures FillChange(r, e) == NO_CHANGE <==>
            && !(r.rating == 0 && e.rating > 0) && e.minutes <= r.minutes && !(r.notes == "" && e.notes != "")
            && !(e.tags != [] && |AddTags(r.tags, e.tags)| != |r.tags|) && !(r.owned == [] && e.platform != "")
            && (r.startedAt.Some? || e.startedAt.NoDate?) && (r.completedAt.Some? || e.completedAt.NoDate?)
  {
  }

  lemma FilledSettles(r: Row, e: ImportEntry, r': Row)
    requires Filled(r, e, r') && RowGood(r)
    requires (r.startedAt.None? ==> !e.startedAt.BadDate?) && (r.completedAt.None? ==> !e.completedAt.BadDate?)
    ensures FillChange(r', e) == NO_CHANGE <==>
            && !(e.platform != "" && Text.Trim(e.platform) == "" && r.owned == [])
            && !(e.startedAt.BlankDate? && r.startedAt.None?) && !(e.completedAt.BlankDate? && r.completedAt.None?)
  {
    hide Text.Distinct, Text.Trim, FillChange;
    FillChangeEmpty(r', e);
    Text.AddedTwice(r.tags, e.tags);
    Text.DistinctOne(e.platform);
    hide Text.Tidy;
  }

  lemma AddedSettles(e: ImportEntry, r': Row, now: Instant)
    requires Added(e, r', now) && !e.startedAt.BadDate? && !e.completedAt.BadDate? && 0 <= r'.minutes
    ensures FillChange(r', e) == NO_CHANGE <==>
            && !(e.platform != "" && Text.Trim(e.platform) == "")
            && !e.startedAt.BlankDate? && !e.completedAt.BlankDate?
  {
    hide Text.Distinct, Text.Trim, FillChange;
    FillChangeEmpty(r', e);
    assert Text.Tidy([]);
    Text.AddedTwice([], e.tags);
    assert [] + e.tags == e.tags;
    Text.DistinctOne(e.platform);
    hide Text.Tidy;
  }

  lemma TimesWereGood(t: Tables, e: ImportEntry, now: Instant)
    requires ImportOne(t, e, now).Ok? && e.game in t.games
    ensures e.game in t.items ==>
              (t.items[e.game].startedAt.None? ==> !e.startedAt.BadDate?)
              && (t.items[e.game].completedAt.None? ==> !e.completedAt.BadDate?)
    ensures e.game !in t.items ==> !e.startedAt.BadDate? && !e.completedAt.BadDate?
  {
    hide Check, SaveItem, UpdateRuns, AddImportedSessions, TakeSnapshot, Text.Distinct;
    var ch := ImportChange(RowOf(t, e.game), e);
    if ch.Some? {
      CheckTimes(t, e.game, ch.value, Upsert);
      GameNotFoundIsCheck(t, e.game, ch.value, now);
    }
  }

  /** After its own import an entry is settled exactly when it was quiet before. */
  lemma SettlesIffQuiet(t: Tables, e: ImportEntry, now: Instant)
    requires Sound(t) && RunsLinked(t, e.game) && ImportOne(t, e, now).Ok?
    ensures Settled(ImportOne(t, e, now).value.tables, e) <==> Quiet(t, e)
  {
    hide Sound, Moves, Linked, InOrder, Filled, Added, FillChange, AddChange, TakeSnapshot, Text.Tidy, Text.Trim,
         AddImportedSessions;
    var g := e.game;
    ImportOneMoves(t, e, now);
    var t' := ImportOne(t, e, now).value.tables;
    NotBad(t, e, now);
    if g in t.items {
      ItemIsSound(t, g);
      TimesWereGood(t, e, now);
      hide ImportOne;
      FilledSettles(t.items[g], e, t'.items[g]);
    } else if g in t.games {
      TimesWereGood(t, e, now);
      hide ImportOne;
      MovedKeeps(t, t', g);
      ItemIsSound(t', g);
      AddedSettles(e, t'.items[g], now);
    } else {
      MissingGame(t, e, now);
    }
  }

  lemma NotBad(t: Tables, e: ImportEntry, now: Instant)
    requires ImportOne(t, e, now).Ok?
    ensures !e.status.BadStatus?
  {
  }

  lemma MissingGame(t: Tables, e: ImportEntry, now: Instant)
    requires Sound(t) && e.game !in t.games && e.game !in t.items && ImportOne(t, e, now).Ok?
    ensures ImportOne(t, e, now).value.tables == t && Check(t, e.game, AddChange(e), Upsert) == Err(GameNotFound)
  {
    hide Sound, AddChange, SaveItem, UpdateRuns, AddImportedSessions, NextState;
    GameNotFoundIsCheck(t, e.game, AddChange(e), now);
  }

  /** A settled entry leaves the tables alone; any other one moves the revision or fails. */
  lemma SettledIsNoOp(t: Tables, e: ImportEntry, now: Instant)
    requires Sound(t) && RunsLinked(t, e.game)
    ensures Settled(t, e) ==> ImportOne(t, e, now) == Ok(Outcome(t, None, false))
    ensures !Settled(t, e) && ImportOne(t, e, now).Ok? ==> RevOf(t) < RevOf(ImportOne(t, e, now).value.tables)
  {
    GameNotFoundIsCheck(t, e.game, AddChange(e), now);
    hide Sound, Moves, Linked, InOrder, Filled, Added, FillChange, AddChange, Check, ApplyChange, TakeSnapshot,
         AddImportedSessions;
    if ImportOne(t, e, now).Ok? {
      ImportOneMoves(t, e, now);
      if e.game in t.items && !Settled(t, e) {
        ExistingIsFound(t, e.game, FillChange(t.items[e.game], e), now);
      }
    }
  }

  lemma ExistingIsFound(t: Tables, g: GameId, ch: Change, now: Instant)
    requires Sound(t) && g in t.items
    ensures ApplyChange(t, g, ch, Upsert, now) != Err(GameNotFound)
  {
    hide ApplyChange, Check;
    ItemIsSound(t, g);
    GameNotFoundIsCheck(t, g, ch, now);
    CheckTimes(t, g, ch, Upsert);
  }

  // ---- The whole batch ----------------------------------------------------

  ghost predicate AllLinked(t: Tables) {
    forall g | g in t.items :: Linked(t, g)
  }

  /** At most one open run per game: every run that is not its item's current one is finished. */
  ghost predicate AllInOrder(t: Tables) {
    forall id | id in t.runs && !IsCurrent(t, id) :: t.runs[id].finishedOn.Some?
  }

  lemma InOrderElsewhere(a: Tables, b: Tables, g: GameId)
    requires OnlyItem(a, b, g)
    ensures AllLinked(a) && RunsLinked(b, g) ==> AllLinked(b)
    ensures AllInOrder(a) && KeepsOrder(a, b, g) ==> AllInOrder(b)
  {
    if AllLinked(a) && RunsLinked(b, g) {
      forall h | h in b.items ensures Linked(b, h) {
        if h != g { assert Linked(a, h); }
      }
    }
    if AllInOrder(a) && KeepsOrder(a, b, g) {
      forall id | id in b.runs && !IsCurrent(b, id) ensures b.runs[id].finishedOn.Some? {
        if b.runs[id].game != g { assert !IsCurrent(a, id); }
      }
    }
  }

  /** a becomes b by writes that keep the ledger sound, covered, linked and in order. */
  ghost predicate Advances(a: Tables, b: Tables) {
    && Sound(b) && Evolves(a, b) && (Covered(a) ==> Covered(b))
    && (AllLinked(a) ==> AllLinked(b)) && (AllInOrder(a) ==> AllInOrder(b))
  }

  lemma AdvancesTransitive(a: Tables, b: Tables, c: Tables)
    requires Advances(a, b) && Advances(b, c)
    ensures Advances(a, c)
  {
    hide Sound, Evolves, Covered, AllInOrder, AllLinked;
    EvolvesTransitive(a, b, c);
  }

  lemma MovesAdvances(a: Tables, b: Tables, g: GameId)
    requires Moves(a, b, g) && KeepsOrder(a, b, g) && (AllLinked(a) ==> RunsLinked(b, g))
    ensures Advances(a, b)
  {
    hide Sound, Evolves, Covered, AllInOrder, AllLinked, OnlyItem, Linked, InOrder, KeepsOrder;
    InOrderElsewhere(a, b, g);
  }

  lemma AdvancesReflexive(t: Tables)
    requires Sound(t)
    ensures Advances(t, t)
  {
    StepsReflexive(t, 0);
    hide Sound, Evolves, Covered, AllInOrder, AllLinked, OnlyItem;
  }

  predicate DistinctGames(hs: seq<ImportEntry>) {
    forall i, j | 0 <= i < j < |hs| :: hs[i].game != hs[j].game
  }

  lemma {:induction false} HeadsDistinct(es: seq<ImportEntry>, seen: set<GameId>)
    ensures DistinctGames(Heads(es, seen))
    ensures forall i | 0 <= i < |Heads(es, seen)| :: Heads(es, seen)[i].game !in seen && Heads(es, seen)[i].game != 0
    decreases es
  {
    if es == [] {
    } else if es[0].game == 0 || es[0].game in seen {
      HeadsDistinct(es[1..], seen);
    } else {
      HeadsDistinct(es[1..], seen + {es[0].game});
    }
  }

  /** Another game's import leaves what this entry looks at alone. */
  lemma OtherEntry(a: Tables, b: Tables, g: GameId, e: ImportEntry)
    requires OnlyItem(a, b, g) && e.game != g
    ensures Settled(a, e) <==> Settled(b, e)
    ensures Quiet(a, e) <==> Quiet(b, e)
  {
    hide FillChange, AddChange, NextState;
    assert RowOf(a, e.game) == RowOf(b, e.game);
  }

  lemma MovedOnly(a: Tables, b: Tables, g: GameId)
    requires Moves(a, b, g)
    ensures OnlyItem(a, b, g)
  {
  }

  ghost predicate Ready(t: Tables) {
    Sound(t) && AllLinked(t)
  }

  /** One head, then the rest. */
  lemma FirstHead(b: Batch, hs: seq<ImportEntry>, now: Instant) returns (b1: Batch)
    requires Ready(b.tables) && hs != [] && ImportEach(b, hs, now).Ok?
    ensures ImportOne(b.tables, hs[0], now).Ok? && b1 == Counted(b, ImportOne(b.tables, hs[0], now).value)
    ensures b1.tables == ImportOne(b.tables, hs[0], now).value.tables
    ensures ImportEach(b1, hs[1..], now) == ImportEach(b, hs, now)
    ensures Ready(b1.tables) && Advances(b.tables, b1.tables) && Moves(b.tables, b1.tables, hs[0].game)
    ensures RevOf(b.tables) <= RevOf(b1.tables)
  {
    hide ImportOne, Sound, Moves, Linked, InOrder, Evolves, Covered;
    b1 := Counted(b, ImportOne(b.tables, hs[0], now).value);
    ImportOneMoves(b.tables, hs[0], now);
    MovedKeeps(b.tables, b1.tables, hs[0].game);
    MovesAdvances(b.tables, b1.tables, hs[0].game);
  }

  lemma {:induction false} ImportEachAdvances(b: Batch, hs: seq<ImportEntry>, now: Instant)
    requires Ready(b.tables) && ImportEach(b, hs, now).Ok?
    ensures Advances(b.tables, ImportEach(b, hs, now).value.tables) && Ready(ImportEach(b, hs, now).value.tables)
    ensures RevOf(b.tables) <= RevOf(ImportEach(b, hs, now).value.tables)
    decreases hs
  {
    hide ImportOne, Sound, Evolves, Covered, AllInOrder, AllLinked, Counted;
    AdvancesReflexive(b.tables);
    if hs != [] {
      var b1 := FirstHead(b, hs, now);
      ImportEachAdvances(b1, hs[1..], now);
      AdvancesTransitive(b.tables, b1.tables, ImportEach(b1, hs[1..], now).value.tables);
    }
  }

  /** A batch settles an entry it does not name exactly when it was settled before. */
  lemma {:induction false} OtherEntries(b: Batch, hs: seq<ImportEntry>, now: Instant, e: ImportEntry)
    requires Ready(b.tables) && ImportEach(b, hs, now).Ok?
    requires forall i | 0 <= i < |hs| :: hs[i].game != e.game
    ensures Settled(b.tables, e) <==> Settled(ImportEach(b, hs, now).value.tables, e)
    decreases hs
  {
    hide ImportOne, Sound, Moves, Evolves, Covered, AllInOrder, AllLinked, Counted, Settled, Quiet, Advances;
    if hs != [] {
      var b1 := FirstHead(b, hs, now);
      MovedOnly(b.tables, b1.tables, hs[0].game);
      OtherEntry(b.tables, b1.tables, hs[0].game, e);
      OtherEntries(b1, hs[1..], now, e);
    }
  }

  lemma {:induction false} BatchSettles(b: Batch, hs: seq<ImportEntry>, now: Instant, i: nat)
    requires Ready(b.tables) && DistinctGames(hs) && ImportEach(b, hs, now).Ok? && i < |hs|
    ensures Settled(ImportEach(b, hs, now).value.tables, hs[i]) <==> Quiet(b.tables, hs[i])
    decreases hs
  {
    hide ImportOne, Sound, Moves, Evolves, Covered, AllInOrder, AllLinked, Linked, InOrder, Counted, Settled, Quiet,
         Advances;
    var b1 := FirstHead(b, hs, now);
    if i == 0 {
      LinkedAt(b.tables, hs[0].game);
      SettlesIffQuiet(b.tables, hs[0], now);
      OtherEntries(b1, hs[1..], now, hs[0]);
    } else {
      MovedOnly(b.tables, b1.tables, hs[0].game);
      OtherEntry(b.tables, b1.tables, hs[0].game, hs[i]);
      assert hs[1..][i - 1] == hs[i];
      BatchSettles(b1, hs[1..], now, i - 1);
    }
  }

  ghost predicate AllSettled(t: Tables, hs: seq<ImportEntry>) {
    forall i | 0 <= i < |hs| :: Settled(t, hs[i])
  }

  /** Running over settled entries changes nothing; over others it fails or moves the revision. */
  lemma {:induction false} SettledBatch(b: Batch, hs: seq<ImportEntry>, now: Instant)
    requires Ready(b.tables)
    ensures AllSettled(b.tables, hs) ==> ImportEach(b, hs, now) == Ok(b.(same := b.same + |hs|))
    ensures ImportEach(b, hs, now).Ok? && ImportEach(b, hs, now).value.tables == b.tables ==> AllSettled(b.tables, hs)
    decreases hs
  {
    hide ImportOne, Sound, Moves, Evolves, Covered, AllInOrder, AllLinked, Linked, InOrder, Settled, Advances;
    if hs != [] {
      LinkedAt(b.tables, hs[0].game);
      SettledIsNoOp(b.tables, hs[0], now);
      if Settled(b.tables, hs[0]) {
        var b1 := b.(same := b.same + 1);
        SettledBatch(b1, hs[1..], now);
        if AllSettled(b.tables, hs) {
          forall i | 0 <= i < |hs[1..]| ensures Settled(b.tables, hs[1..][i]) { assert hs[1..][i] == hs[i + 1]; }
        }
        if AllSettled(b.tables, hs[1..]) {
          forall i | 0 <= i < |hs| ensures Settled(b.tables, hs[i]) { if i > 0 { assert hs[i] == hs[1..][i - 1]; } }
        }
      } else if ImportEach(b, hs, now).Ok? {
        var b1 := FirstHead(b, hs, now);
        ImportEachAdvances(b1, hs[1..], now);
      }
    }
  }

  lemma LinkedAt(t: Tables, g: GameId)
    requires AllLinked(t)
    ensures RunsLinked(t, g)
  {
  }

  /**
   * Importing twice. A committed import leaves nothing for a second run to do
   * - every entry counted as unchanged, the library untouched - exactly when
   * no entry held a blank text for something its game lacked.
   */
  lemma ImportTwice(t: Tables, es: seq<ImportEntry>, now: Instant, later: Instant)
    requires Ready(t) && ImportAll(t, es, now).Ok?
    ensures var first := ImportAll(t, es, now).value;
            var again := ImportAll(first.tables, es, later);
            var hs := Heads(es, {});
            && ((forall i | 0 <= i < |hs| :: Quiet(t, hs[i])) ==> again == Ok(Batch(first.tables, [], 0, 0, |hs|)))
            && (again.Ok? && again.value.tables == first.tables ==> forall i | 0 <= i < |hs| :: Quiet(t, hs[i]))
  {
    hide Sound, AllInOrder, AllLinked, ImportEach, Settled, Quiet, Advances;
    var hs := Heads(es, {});
    HeadsDistinct(es, {});
    var b := Batch(t, [], 0, 0, 0);
    var first := ImportEach(b, hs, now).value;
    ImportEachAdvances(b, hs, now);
    forall i | 0 <= i < |hs| ensures Settled(first.tables, hs[i]) <==> Quiet(t, hs[i]) { BatchSettles(b, hs, now, i); }
    SettledBatch(Batch(first.tables, [], 0, 0, 0), hs, later);
  }

  // ---- Nothing recorded is overwritten ------------------------------------

  /** What an import may do to a row that was there. */
  ghost predicate OnlyFilled(r: Row, r': Row) {
    && r'.status == r.status && r'.createdAt == r.createdAt && r'.medium == r.medium
    && (r.rating != 0 ==> r'.rating == r.rating)
    && (r.notes != "" ==> r'.notes == r.notes)
    && (r.owned != [] ==> r'.owned == r.owned)
    && (r.startedAt.Some? ==> r'.startedAt == r.startedAt)
    && (r.completedAt.Some? ==> r'.completedAt == r.completedAt)
    && r.tags <= r'.tags && r.minutes <= r'.minutes
  }

  lemma FilledIsOnlyFilled(r: Row, e: ImportEntry, r': Row)
    requires Filled(r, e, r') && RowGood(r)
    ensures OnlyFilled(r, r')
  {
    hide Text.Tidy, Text.Distinct;
    AddTagsKeeps(r, e);
  }

  lemma {:induction false} ImportEachOnlyFills(b: Batch, hs: seq<ImportEntry>, now: Instant, g: GameId)
    requires Ready(b.tables) && ImportEach(b, hs, now).Ok? && g in b.tables.items
    ensures g in ImportEach(b, hs, now).value.tables.items
    ensures OnlyFilled(b.tables.items[g], ImportEach(b, hs, now).value.tables.items[g])
    decreases hs
  {
    hide ImportOne, Sound, Moves, Evolves, Covered, AllInOrder, AllLinked, Linked, InOrder, Counted, Advances, Filled,
         Added;
    if hs != [] {
      var b1 := FirstHead(b, hs, now);
      LinkedAt(b.tables, hs[0].game);
      ImportOneMoves(b.tables, hs[0], now);
      if hs[0].game == g {
        ItemIsSound(b.tables, g);
        FilledIsOnlyFilled(b.tables.items[g], hs[0], b1.tables.items[g]);
      } else {
        MovedOnly(b.tables, b1.tables, hs[0].game);
      }
      ImportEachOnlyFills(b1, hs[1..], now, g);
    }
  }

  /** An import never overwrites, drops or lowers what any game already had. */
  lemma ImportOnlyFills(t: Tables, es: seq<ImportEntry>, now: Instant)
    requires Ready(t) && ImportAll(t, es, now).Ok?
    ensures var r := ImportAll(t, es, now).value.tables;
            && Advances(t, r)
            && forall g | g in t.items :: g in r.items && OnlyFilled(t.items[g], r.items[g])
  {
    var b := Batch(t, [], 0, 0, 0);
    ImportEachAdvances(b, Heads(es, {}), now);
    forall g | g in t.items
      ensures g in ImportAll(t, es, now).value.tables.items
              && OnlyFilled(t.items[g], ImportAll(t, es, now).value.tables.items[g])
    {
      ImportEachOnlyFills(b, Heads(es, {}), now, g);
    }
    hide Advances;
  }
}
