// What the library operations leave, column by column: the row a write saves,
// the session it logs, and what the journal, bulk and deletion operations do.
module LibraryEffects {
  import opened Prelude
  import opened LibraryTypes
  import opened LibraryTables
  import opened LibraryLedger
  import opened LibraryWrites
  import opened LibraryUndo
  import opened LibraryImport
  import opened LibraryHistory
  import opened LibraryInvariant
  import Text

  // ---- The row a write saves ----------------------------------------------

  /** A time column: cleared, set, kept, or stamped when the item enters the status that sets it. */
  ghost predicate TimeIs(v: TimeText, was: Option<Instant>, entered: bool, now: Instant, left: Option<Instant>) {
    if v.At? then left == Some(v.time)
    else if v.Clear? then left == None
    else if was.Some? then left == was
    else left == (if entered then Some(now) else None)
  }

  /** A list column: tidy, with exactly the keys asked for, and left alone when nothing was asked. */
  ghost predicate ListIs(asked: Option<seq<string>>, was: seq<string>, left: seq<string>) {
    if asked.None? then left == was
    else
      && Text.Tidy(left)
      && (forall k :: k in Text.Keys(left) <==> k != "" && k in Text.Keys(asked.value))
      && (Text.Tidy(asked.value) ==> left == asked.value)
  }

  /** The platforms a change asks for, by the list or by a single one. */
  function AskedPlatforms(ch: Change): Option<seq<string>> {
    if ch.platforms.Some? then ch.platforms
    else if ch.platform.Some? then Some([ch.platform.value])
    else None
  }

  ghost predicate RowSaved(was: Option<Row>, ch: Change, now: Instant, row: Row) {
    && row.status == (if ch.status.Some? && ch.status.value.Is? then ch.status.value.status
                      else if was.Some? then was.value.status else Backlog)
    && row.rating == (if ch.rating.Some? then ch.rating.value else if was.Some? then was.value.rating else 0)
    && row.notes == (if ch.notes.Some? then ch.notes.value else if was.Some? then was.value.notes else "")
    && (ch.medium.Some? ==> AMedium(row.medium) == ch.medium.value)
    && (ch.medium.None? ==> row.medium == if was.Some? then was.value.medium else NoMedium)
    && ListIs(ch.tags, if was.Some? then was.value.tags else [], row.tags)
    && ListIs(AskedPlatforms(ch), if was.Some? then was.value.owned else [], row.owned)
    && row.platform == (if row.owned == [] then "" else row.owned[0])
    && TimeIs(ch.startedAt, if was.Some? then was.value.startedAt else None,
              row.status.Playing? && (was.None? || !was.value.status.Playing?), now, row.startedAt)
    && TimeIs(ch.completedAt, if was.Some? then was.value.completedAt else None,
              row.status.Completed? && (was.None? || !was.value.status.Completed?), now, row.completedAt)
    && row.createdAt == (if was.Some? then was.value.createdAt else now) && row.updatedAt == now
  }

  lemma TidiedList(asked: Option<seq<string>>, was: seq<string>)
    requires Text.Tidy(was)
    ensures ListIs(asked, was, Text.Distinct(if asked.Some? then asked.value else was, {}))
  {
    Text.TidyIsDistinct(was);
    if asked.Some? {
      Text.DistinctIsTidy(asked.value, {});
      if Text.Tidy(asked.value) { Text.TidyIsDistinct(asked.value); }
    }
    hide Text.Tidy, Text.Distinct, Text.Keys;
  }

  lemma OnePlatform(p: string)
    ensures Text.Distinct(if Text.Trim(p) == "" then [] else [Text.Trim(p)], {}) == Text.Distinct([p], {})
  {
    Text.TrimTwice(p);
    Text.DistinctOne(p);
    Text.DistinctOne(Text.Trim(p));
    hide Text.Trim;
  }

  lemma NextLists(prev: Option<Row>, ch: Change)
    requires NextState(prev, ch).Ok? && (prev.Some? ==> RowGood(prev.value))
    ensures var st := NextState(prev, ch).value;
            && ListIs(ch.tags, if prev.Some? then prev.value.tags else [], st.tags)
            && ListIs(AskedPlatforms(ch), if prev.Some? then prev.value.owned else [], st.platforms)
  {
    assert Text.Tidy([]);
    TidiedList(ch.tags, Stored(prev).tags);
    TidiedList(AskedPlatforms(ch), Stored(prev).platforms);
    if ch.platform.Some? { OnePlatform(ch.platform.value); }
    hide ListIs, Text.Tidy, Text.Distinct, Text.Trim;
  }

  /** The committed row, every column but its total, current run and revision. */
  lemma ApplyChangeSaves(t: Tables, g: GameId, ch: Change, mode: Mode, now: Instant)
    requires Sound(t) && RunsLinked(t, g) && ApplyChange(t, g, ch, mode, now).Ok?
    ensures var t' := ApplyChange(t, g, ch, mode, now).value;
            && g in t'.items
            && RowSaved(if g in t.items then Some(t.items[g]) else None, ch, now, t'.items[g])
            && t'.items[g].minutes == (var total := if g in t.items then t.items[g].minutes else 0;
                                       if ch.minutes.Some? then ch.minutes.value
                                       else if ch.minutesDelta.None? then total
                                       else if total + ch.minutesDelta.value < 0 then 0
                                       else total + ch.minutesDelta.value)
  {
    hide ApplyChange, Sound, Linked, NextState, SavedRow, RowSaved;
    ApplyChangeRow(t, g, ch, mode, now);
    CheckIsGood(t, g, ch, mode);
    CheckTimes(t, g, ch, mode);
    hide Check;
    if g in t.items { ItemIsSound(t, g); }
    var st := NextState(RowOf(t, g), ch).value;
    NextLists(RowOf(t, g), ch);
    SavedFields(t, g, st, ch, now);
    var row := ApplyChange(t, g, ch, mode, now).value.items[g];
    SavedByFields(RowOf(t, g), ch, now, SavedRow(t, g, st, ch, now), row);
  }

  lemma SavedFields(t: Tables, g: GameId, st: ItemState, ch: Change, now: Instant)
    requires NextState(RowOf(t, g), ch) == Ok(st) && !ch.startedAt.BadTime? && !ch.completedAt.BadTime?
    requires ListIs(ch.tags, if g in t.items then t.items[g].tags else [], st.tags)
    requires ListIs(AskedPlatforms(ch), if g in t.items then t.items[g].owned else [], st.platforms)
    ensures RowSaved(RowOf(t, g), ch, now, SavedRow(t, g, st, ch, now))
  {
    hide ListIs, Text.Distinct, Text.Trim, TagsFit, PlatformsFit;
  }

  lemma SavedByFields(was: Option<Row>, ch: Change, now: Instant, a: Row, b: Row)
    requires RowSaved(was, ch, now, a) && b == a.(minutes := b.minutes, current := b.current, rev := b.rev)
    ensures RowSaved(was, ch, now, b)
  {
    hide ListIs;
  }

  // ---- What a write refuses -----------------------------------------------

  function AskedRating(t: Tables, g: GameId, ch: Change): int {
    if ch.rating.Some? then ch.rating.value else if g in t.items then t.items[g].rating else 0
  }

  function AskedNotes(t: Tables, g: GameId, ch: Change): string {
    if ch.notes.Some? then ch.notes.value else if g in t.items then t.items[g].notes else ""
  }

  function AskedTags(t: Tables, g: GameId, ch: Change): seq<string> {
    if ch.tags.Some? then ch.tags.value else if g in t.items then t.items[g].tags else []
  }

  function AskedOwned(t: Tables, g: GameId, ch: Change): seq<string> {
    if AskedPlatforms(ch).Some? then AskedPlatforms(ch).value else if g in t.items then t.items[g].owned else []
  }

  predicate StatusRefused(t: Tables, g: GameId, ch: Change) {
    ch.status.Some? && (ch.status.value.BadStatus? || (ch.status.value.BlankStatus? && g in t.items))
  }

  predicate TagsRefused(t: Tables, g: GameId, ch: Change) {
    var tags := Text.Distinct(AskedTags(t, g, ch), {});
    |tags| > 32 || exists tag | tag in tags :: |tag| > 40
  }

  predicate PlatformsRefused(t: Tables, g: GameId, ch: Change) {
    var owned := Text.Distinct(AskedOwned(t, g, ch), {});
    |owned| > 32 || exists p | p in owned :: Text.Bytes(p) > 64
  }

  /** Some field of the change, or of the row it would leave, is refused. */
  predicate FieldRefused(t: Tables, g: GameId, ch: Change) {
    || StatusRefused(t, g, ch)
    || AskedRating(t, g, ch) < 0 || AskedRating(t, g, ch) > 100
    || |AskedNotes(t, g, ch)| > 10000
    || TagsRefused(t, g, ch)
    || ch.medium == Some(BadMedium)
    || PlatformsRefused(t, g, ch)
  }

  lemma FieldsChecked(t: Tables, g: GameId, ch: Change)
    ensures NextState(RowOf(t, g), ch).Err? <==> FieldRefused(t, g, ch)
    ensures var r := NextState(RowOf(t, g), ch);
            && (r == Err(Invalid("invalid_status")) ==> StatusRefused(t, g, ch))
            && (r == Err(Invalid("invalid_rating")) ==> !(0 <= AskedRating(t, g, ch) <= 100))
            && (r == Err(Invalid("invalid_notes")) ==> |AskedNotes(t, g, ch)| > 10000)
            && (r == Err(Invalid("invalid_tags")) ==> TagsRefused(t, g, ch))
            && (r == Err(Invalid("invalid_medium")) ==> ch.medium == Some(BadMedium))
            && (r == Err(Invalid("invalid_platform")) ==> PlatformsRefused(t, g, ch))
            && (r.Err? ==> FieldError(r.error))
  {
    if ch.platform.Some? { OnePlatform(ch.platform.value); }
    hide Text.Trim, Text.Distinct, Text.Bytes;
    var tags := Text.Distinct(AskedTags(t, g, ch), {});
    var owned := Text.Distinct(AskedOwned(t, g, ch), {});
    assert TagsFit(tags) <==> !TagsRefused(t, g, ch) by {
      if !TagsFit(tags) && |tags| <= 32 { var i :| 0 <= i < |tags| && |tags[i]| > 40; assert tags[i] in tags; }
    }
    assert PlatformsFit(owned) <==> !PlatformsRefused(t, g, ch) by {
      if !PlatformsFit(owned) && |owned| <= 32 {
        var i :| 0 <= i < |owned| && Text.Bytes(owned[i]) > 64;
        assert owned[i] in owned;
      }
    }
    hide TagsFit, PlatformsFit, TagsRefused, PlatformsRefused;
  }

  predicate FieldError(e: Error) {
    || e == Invalid("invalid_status") || e == Invalid("invalid_rating") || e == Invalid("invalid_notes")
    || e == Invalid("invalid_tags") || e == Invalid("invalid_medium") || e == Invalid("invalid_platform")
  }

  lemma FieldErrorsApart(e: Error)
    requires FieldError(e)
    ensures e != NotFound && e != GameNotFound && e != Invalid("invalid_playtime") && e != Invalid("invalid_date")
    ensures e != Invalid("invalid_completion") && e != Invalid("invalid_timestamp") && e != Invalid("invalid_note")
  {
  }

  lemma ChecksOrder(t: Tables, g: GameId, ch: Change, mode: Mode)
    ensures Check(t, g, ch, mode).Ok? <==>
              && !(ch.minutes.Some? && ch.minutesDelta.Some?) && !ch.playedOn.BadDay? && (g in t.items || mode.Upsert?)
              && NextState(RowOf(t, g), ch).Ok? && ch.completion != Some(BadCompletion) && g in t.games
              && !ch.startedAt.BadTime? && !ch.completedAt.BadTime?
    ensures var r := Check(t, g, ch, mode);
            && (r == Err(NotFound) ==> g !in t.items && mode.Patch?)
            && (r == Err(GameNotFound) ==> g !in t.games)
            && (r == Err(Invalid("invalid_playtime")) ==> ch.minutes.Some? && ch.minutesDelta.Some?)
            && (r == Err(Invalid("invalid_date")) ==> ch.playedOn.BadDay?)
            && (r == Err(Invalid("invalid_completion")) ==> ch.completion == Some(BadCompletion))
            && (r == Err(Invalid("invalid_timestamp")) ==> ch.startedAt.BadTime? || ch.completedAt.BadTime?)
            && r != Err(Invalid("invalid_note"))
  {
    FieldsChecked(t, g, ch);
    if NextState(RowOf(t, g), ch).Err? { FieldErrorsApart(NextState(RowOf(t, g), ch).error); }
    hide NextState, FieldError, FieldRefused, StatusRefused, TagsRefused, PlatformsRefused;
  }

  lemma LoggingErrors(t: Tables, g: GameId, ch: Change, mode: Mode, now: Instant)
    requires Check(t, g, ch, mode).Ok?
    ensures var r := ApplyChange(t, g, ch, mode, now);
            || r.Ok? || r == Err(Constraint)
            || (r == Err(Invalid("invalid_playtime")) && ch.minutes.Some? && ch.minutes.value < 0)
            || (r == Err(Invalid("invalid_note")) && |Text.Trim(ch.sessionNote)| > 500)
  {
    hide Check, SaveItem, UpdateRuns, LogMinutes, Text.Trim;
    if Check(t, g, ch, mode).Ok? {
      var saved := SaveItem(t, g, Check(t, g, ch, mode).value, ch, now);
      if saved.Ok? && g in saved.value.items {
        var (t2, run) := UpdateRuns(saved.value, g, RowOf(t, g), Check(t, g, ch, mode).value, ch, now);
        if g in t2.items { LogErrors(t2, g, run, ch, now); }
      }
    }
  }

  lemma LogErrors(t: Tables, g: GameId, run: Option<nat>, ch: Change, now: Instant)
    requires g in t.items
    ensures var r := LogMinutes(t, g, run, ch, now);
            || r.Ok? || r == Err(Constraint)
            || (r == Err(Invalid("invalid_playtime")) && ch.minutes.Some? && ch.minutes.value < 0)
            || (r == Err(Invalid("invalid_note")) && |Text.Trim(ch.sessionNote)| > 500)
  {
    hide AddRunMinutes, UpdateItem, SessionCheck, Text.Trim;
  }

  /** A write is refused exactly for these reasons, and the answer names one that is there. */
  lemma ApplyChangeRefuses(t: Tables, g: GameId, ch: Change, mode: Mode, now: Instant)
    requires Sound(t) && RunsLinked(t, g)
    ensures var r := ApplyChange(t, g, ch, mode, now);
            var both := ch.minutes.Some? && ch.minutesDelta.Some?;
            var lost := ch.minutes.Some? && ch.minutes.value < 0;
            var longNote := |Text.Trim(ch.sessionNote)| > 500;
            && (r.Err? <==>
                  || both || ch.playedOn.BadDay? || (g !in t.items && mode.Patch?) || FieldRefused(t, g, ch)
                  || ch.completion == Some(BadCompletion) || g !in t.games
                  || ch.startedAt.BadTime? || ch.completedAt.BadTime?
                  || lost || (longNote && TotalAsked(t, g, ch) != TotalNow(t, g)))
            && (r == Err(NotFound) ==> g !in t.items && mode.Patch?)
            && (r == Err(GameNotFound) ==> g !in t.games)
            && (r == Err(Invalid("invalid_playtime")) ==> both || lost)
            && (r == Err(Invalid("invalid_date")) ==> ch.playedOn.BadDay?)
            && (r == Err(Invalid("invalid_completion")) ==> ch.completion == Some(BadCompletion))
            && (r == Err(Invalid("invalid_timestamp")) ==> ch.startedAt.BadTime? || ch.completedAt.BadTime?)
            && (r == Err(Invalid("invalid_note")) ==> longNote)
  {
    hide Sound, Linked, NextState, FieldRefused, SaveItem, UpdateRuns, LogMinutes, Text.Trim, Check, StatusRefused,
         TagsRefused, PlatformsRefused;
    ApplyChangeCommits(t, g, ch, mode, now);
    FieldsChecked(t, g, ch);
    ChecksOrder(t, g, ch, mode);
    CheckFails(t, g, ch, mode, now);
    if g in t.items { ItemIsSound(t, g); }
    if Check(t, g, ch, mode).Ok? {
      LoggingErrors(t, g, ch, mode, now);
    }
    hide ApplyChange;
  }

  lemma CheckFails(t: Tables, g: GameId, ch: Change, mode: Mode, now: Instant)
    ensures Check(t, g, ch, mode).Err? ==> ApplyChange(t, g, ch, mode, now) == Err(Check(t, g, ch, mode).error)
  {
    hide Check;
  }

  function TotalNow(t: Tables, g: GameId): int {
    if g in t.items then t.items[g].minutes else 0
  }

  /** The total a change leaves. */
  function TotalAsked(t: Tables, g: GameId, ch: Change): int {
    if ch.minutesDelta.Some? then (if TotalNow(t, g) + ch.minutesDelta.value < 0 then 0
                                   else TotalNow(t, g) + ch.minutesDelta.value)
    else if ch.minutes.Some? then ch.minutes.value
    else TotalNow(t, g)
  }

  // ---- The session a write logs -------------------------------------------

  lemma OpenRunSessions(t: Tables, g: GameId, platform: string, startedOn: Option<Day>, now: Instant)
    ensures OpenRun(t, g, platform, startedOn, now).0.sessSeq == t.sessSeq
  {
  }

  lemma UpdateRunsSessions(t: Tables, g: GameId, prev: Option<Row>, st: ItemState, ch: Change, now: Instant)
    requires g in t.items
    ensures UpdateRuns(t, g, prev, st, ch, now).0.sessSeq == t.sessSeq
  {
    hide OpenRun, FirstStart, Today, EditRun, Finished;
    var row, platform := t.items[g], Primary(st.platforms);
    OpenRunSessions(t, g, platform, FirstStart(row, prev, ch, now), now);
    OpenRunSessions(t, g, platform, Some(Today(ch.playedOn, now)), now);
    OpenRunSessions(t, g, platform, DayOf(row.startedAt), now);
    OpenRunSessions(MoveRun(t, g, prev, st, ch, now).0, g, platform, FirstStart(row, prev, ch, now), now);
  }

  lemma LogMinutesSession(t: Tables, g: GameId, c: Option<nat>, ch: Change, now: Instant)
    requires g in t.items && LogMinutes(t, g, c, ch, now).Ok? && !(ch.minutes.Some? && ch.minutesDelta.Some?)
    requires 0 <= t.items[g].minutes
    ensures var d := NewTotal(t.items[g].minutes, ch) - t.items[g].minutes;
            LogMinutes(t, g, c, ch, now).value.sessions ==
            if d == 0 then t.sessions
            else t.sessions[t.sessSeq + 1 := Session(
                              g, c, if ch.playedOn.ADay? then ch.playedOn.day else now / 86400, d,
                              Text.Trim(ch.sessionNote),
                              if ch.minutesDelta.Some? && 0 < ch.minutesDelta.value <= 1440 then Manual else Adjust,
                              now)]
    ensures var d := NewTotal(t.items[g].minutes, ch) - t.items[g].minutes;
            LogMinutes(t, g, c, ch, now).value.sessSeq == if d == 0 then t.sessSeq else t.sessSeq + 1
  {
    hide Text.Trim, InsertSession;
    var d := Delta(t.items[g].minutes, ch);
    if d != 0 {
      var s := Session(g, c, Today(ch.playedOn, now), d, Text.Trim(ch.sessionNote), DeltaSource(ch), now);
      InsertSessionMinutes(t, t.sessSeq + 1, s, now);
      InsertSessionRow(t, t.sessSeq + 1, s, now);
    }
  }

  /**
   * The change of a total is logged as one session, on the current run the write leaves; nothing else of
   * the journal moves.
   */
  lemma ApplyChangeLogs(t: Tables, g: GameId, ch: Change, mode: Mode, now: Instant)
    requires Sound(t) && RunsLinked(t, g) && ApplyChange(t, g, ch, mode, now).Ok?
    ensures var t' := ApplyChange(t, g, ch, mode, now).value;
            && g in t'.items
            && var d := t'.items[g].minutes - TotalNow(t, g);
            t'.sessions ==
            if d == 0 then t.sessions
            else t.sessions[t.sessSeq + 1 := Session(
                              g, t'.items[g].current, if ch.playedOn.ADay? then ch.playedOn.day else now / 86400,
                              d, Text.Trim(ch.sessionNote),
                              if ch.minutesDelta.Some? && 0 < ch.minutesDelta.value <= 1440 then Manual else Adjust,
                              now)]
    ensures var t' := ApplyChange(t, g, ch, mode, now).value;
            t'.sessSeq == if g in t'.items && t'.items[g].minutes == TotalNow(t, g) then t.sessSeq else t.sessSeq + 1
  {
    hide ApplyChange, Stages, Sound, Moves, Linked, InOrder, GoodState, NewTotal, SavedRow, Check, SaveItem, UpdateRuns,
         LogMinutes, Text.Trim;
    var st, t1, t2, c, t3 := WriteStages(t, g, ch, mode, now);
    CheckIsGood(t, g, ch, mode);
    StagesExist(t, g, ch, now, st, t1, t2, c, t3);
    StagesKeep(t, g, ch, now, st, t1, t2, c, t3);
    MovedKeeps(t1, t2, g);
    SaveItemMoves(t, g, st, ch, now);
    UpdateRunsSessions(t1, g, RowOf(t, g), st, ch, now);
    SavedTotalIs(t, g, st, ch, now);
    ItemIsSound(t2, g);
    assert Stages(t, g, ch, now, st, t1, t2, c, t3);
    StagesAre(t, g, ch, now, st, t1, t2, c, t3);
    LogMinutesSession(t2, g, c, ch, now);
  }

  lemma SavedTotalIs(t: Tables, g: GameId, st: ItemState, ch: Change, now: Instant)
    ensures SavedRow(t, g, st, ch, now).minutes == TotalNow(t, g)
  {
  }

  lemma StagesAre(t: Tables, g: GameId, ch: Change, now: Instant, st: ItemState, t1: Tables, t2: Tables, c: Option<nat>,
                  t3: Tables)
    requires g in t1.items && g in t2.items && Stages(t, g, ch, now, st, t1, t2, c, t3)
    ensures SaveItem(t, g, st, ch, now) == Ok(t1) && UpdateRuns(t1, g, RowOf(t, g), st, ch, now) == (t2, c)
    ensures LogMinutes(t2, g, c, ch, now) == Ok(t3)
  {
    hide SaveItem, UpdateRuns, LogMinutes;
  }

  // ---- Replacing ----------------------------------------------------------

  /** A replace resets what it leaves out; the dates alone are kept. */
  lemma ReplaceResets(db: Db, g: GameId, ch: Change, token: nat, now: Instant)
    requires Inv(db) && Attempt(db, DoReplace(g, ch, token, now)).Ok?
    ensures var t := Next(db, DoReplace(g, ch, token, now)).tables;
            && g in t.items
            && var row := t.items[g];
            && (ch.status.None? ==> g !in db.tables.items && row.status == Backlog)
            && (ch.status.Some? && ch.status.value.Is? ==> row.status == ch.status.value.status)
            && row.rating == (if ch.rating.Some? then ch.rating.value else 0)
            && row.notes == (if ch.notes.Some? then ch.notes.value else "")
            && AMedium(row.medium) == (if ch.medium.Some? then ch.medium.value else AMedium(NoMedium))
            && (ch.tags.None? ==> row.tags == [])
            && (ch.platforms.None? && ch.platform.None? ==> row.owned == [])
            && (ch.minutesDelta.None? ==> row.minutes == if ch.minutes.Some? then ch.minutes.value else 0)
            && TimeIs(ch.startedAt, if g in db.tables.items then db.tables.items[g].startedAt else None,
                      row.status.Playing? && (g in db.tables.items ==> !db.tables.items[g].status.Playing?),
                      now, row.startedAt)
  {
    hide ApplyChange, Sound, LogsGood, Linked, SaveUndo, TakeSnapshot, TimeIs;
    var t, full := db.tables, ReplaceChange(ch);
    LinkedAt(t, g);
    ApplyChangeSaves(t, g, full, Upsert, now);
    ApplyChangeRefuses(t, g, full, Upsert, now);
    SaveUndoKeepsTables(db, ApplyChange(t, g, full, Upsert, now).value, [TakeSnapshot(t, g)], token, now);
    assert Text.Tidy([]);
    hide Text.Tidy;
  }

  lemma SaveUndoKeepsTables(db: Db, t: Tables, snaps: seq<Snapshot>, token: nat, now: Instant)
    ensures SaveUndo(db, t, snaps, token, now).Ok? ==>
              SaveUndo(db, t, snaps, token, now).value.tables == t
              && SaveUndo(db, t, snaps, token, now).value.timer == db.timer
  {
  }
}
