// What a write does to playthroughs, field by field: the run it ends, the run
// it starts, the run that goes on, and the runs it leaves alone.
module LibraryRuns {
  import opened Prelude
  import opened LibraryTypes
  import opened LibraryTables
  import opened LibraryLedger
  import opened LibraryWrites
  import Text

  /** The run the item's row points at. */
  function Current(t: Tables, g: GameId): Option<Run> {
    if g in t.items && t.items[g].current.Some? && t.items[g].current.value in t.runs
    then Some(t.runs[t.items[g].current.value])
    else None
  }

  /** The day a write counts as played: the one it names, else the day it happens. */
  function Played(ch: Change, now: Instant): Day {
    if ch.playedOn.ADay? then ch.playedOn.day else now / 86400
  }

  function DayPart(at: Option<Instant>): Option<Day> {
    if at.Some? then Some(at.value / 86400) else None
  }

  function First(owned: seq<string>): string {
    if |owned| > 0 then owned[0] else ""
  }

  /** A run that an item leaves on entering completed or abandoned; was is the run that was current. */
  ghost predicate Ended(was: Option<Run>, row: Row, ch: Change, now: Instant, run: Run) {
    && run.finishedOn == (if row.status.Completed? then DayPart(row.completedAt) else Some(Played(ch, now)))
    && run.completion == (if ch.completion.Some? && ch.completion.value.ACompletion?
                          then Some(ch.completion.value.completion)
                          else if ch.completion.Some? || row.status.Completed? then None
                          else Some(Dropped))
    && run.rating == (if row.rating > 0 then Some(row.rating)
                      else if row.status.Completed? && ch.rating.Some? then None
                      else if was.Some? then was.value.rating else None)
    && run.startedOn == (if ch.startedAt.Keep? && was.Some? then was.value.startedOn else DayPart(row.startedAt))
    && run.platform == (if was.Some? && was.value.platform != "" then was.value.platform else First(row.owned))
    && run.edition == (if ch.edition.Some? then ch.edition else if was.Some? then was.value.edition else None)
    && run.note == (if was.Some? then was.value.note else "")
    && run.createdAt == (if was.Some? then was.value.createdAt else now)
  }

  /** A run that a write opens while the item is being played, or for an edition. */
  ghost predicate Opened(again: bool, before: Option<Instant>, row: Row, ch: Change, now: Instant, run: Run) {
    && run.startedOn == (if !ch.startedAt.Keep? then DayPart(row.startedAt)
                         else if !again && before.Some? then DayPart(before)
                         else Some(Played(ch, now)))
    && run.platform == First(row.owned)
    && run.edition == ch.edition
    && run.note == "" && run.createdAt == now
    && run.finishedOn == (if row.status.Completed? && !ch.completedAt.Keep? then DayPart(row.completedAt) else None)
    && run.completion == (if row.status.Completed? && ch.completion.Some? && ch.completion.value.ACompletion?
                          then Some(ch.completion.value.completion) else None)
    && run.rating == (if row.status.Completed? && ch.rating.Some? && row.rating != 0 then Some(row.rating) else None)
  }

  /** A run that stays current: only what the change says about it is new. */
  ghost predicate WentOn(was: Run, row: Row, ch: Change, run: Run) {
    && run.startedOn == (if ch.startedAt.Keep? then was.startedOn else DayPart(row.startedAt))
    && run.finishedOn == (if row.status.Completed? && !ch.completedAt.Keep? then DayPart(row.completedAt)
                          else was.finishedOn)
    && run.completion == (if ch.completion.None? || !(row.status.Completed? || row.status.Abandoned?)
                          then was.completion
                          else if ch.completion.value.ACompletion? then Some(ch.completion.value.completion)
                          else None)
    && run.rating == (if ch.rating.None? || !row.status.Completed? then was.rating
                      else if row.rating == 0 then None else Some(row.rating))
    && run.edition == (if ch.edition.Some? then ch.edition else was.edition)
    && run.platform == was.platform && run.note == was.note && run.createdAt == was.createdAt
  }

  /** b has the runs of a, and perhaps c, and only c may differ. */
  ghost predicate OnlyRun(a: Tables, b: Tables, g: GameId, c: nat) {
    && b.runs.Keys == a.runs.Keys + {c} && b.runs[c].game == g
    && forall id | id in a.runs && id != c :: b.runs[id] == a.runs[id]
  }

  // ---- Bringing the runs in step ------------------------------------------

  lemma PartsAgree(at: Option<Instant>, ch: Change, now: Instant, owned: seq<string>)
    ensures DayOf(at) == DayPart(at) && Today(ch.playedOn, now) == Played(ch, now) && Primary(owned) == First(owned)
  {
  }

  /** The row as the runs are brought in step with it. */
  ghost predicate RowIs(row: Row, st: ItemState) {
    row.status == st.status && row.rating == st.rating && row.owned == st.platforms
  }

  lemma EndedFields(was: Option<Run>, r: Run, row: Row, st: ItemState, ch: Change, now: Instant)
    requires RowIs(row, st) && 0 <= st.rating && (st.status.Completed? || st.status.Abandoned?)
    requires !(ch.completion.Some? && ch.completion.value.BadCompletion?)
    requires st.status.Completed? && row.completedAt.None? ==> !ch.completedAt.Keep?
    requires r == if was.Some? then was.value else FreshRun(r.game, Primary(st.platforms), DayOf(row.startedAt), now)
    ensures Ended(was, row, ch, now, EditRun(Finished(r, row, st, ch, now), row, st, ch))
    ensures EditRun(Finished(r, row, st, ch, now), row, st, ch).game == r.game
  {
  }

  lemma WentOnFields(was: Run, row: Row, st: ItemState, ch: Change)
    requires RowIs(row, st) && !(ch.completion.Some? && ch.completion.value.BadCompletion?)
    ensures WentOn(was, row, ch, EditRun(was, row, st, ch)) && EditRun(was, row, st, ch).game == was.game
  {
  }

  lemma OpenedFields(again: bool, prev: Option<Row>, r: Run, row: Row, st: ItemState, ch: Change, now: Instant)
    requires RowIs(row, st) && (st.status.Playing? || st.status.Completed?)
    requires !(ch.completion.Some? && ch.completion.value.BadCompletion?)
    requires ch.startedAt.Keep? && prev.Some? && prev.value.startedAt.Some? ==> row.startedAt == prev.value.startedAt
    requires r == FreshRun(r.game, Primary(st.platforms),
                           if again then Some(Today(ch.playedOn, now)) else FirstStart(row, prev, ch, now), now)
    ensures Opened(again, if prev.Some? then prev.value.startedAt else None, row, ch, now, EditRun(r, row, st, ch))
    ensures EditRun(r, row, st, ch).game == r.game
  {
  }

  /** Where the status leaves a run current, the change's edits go into it. */
  lemma EditsAfter(t: Tables, g: GameId, prev: Option<Row>, st: ItemState, ch: Change, now: Instant, t1: Tables, c: nat)
    requires g in t.items && MoveRun(t, g, prev, st, ch, now) == (t1, Some(c)) && c in t1.runs
    ensures UpdateRuns(t, g, prev, st, ch, now) ==
            (UpdateRun(t1, c, EditRun(t1.runs[c], t.items[g], st, ch)), Some(c))
  {
    hide MoveRun, EditRun, OpenRun, FirstStart, UpdateRun;
  }

  lemma EndsRun(t: Tables, g: GameId, prev: Option<Row>, st: ItemState, ch: Change, now: Instant)
    requires Sound(t) && g in t.items && Linked(t, g) && RowIs(t.items[g], st) && 0 <= st.rating
    requires (st.status.Completed? || st.status.Abandoned?) && (prev.None? || prev.value.status != st.status)
    requires !(ch.completion.Some? && ch.completion.value.BadCompletion?)
    requires st.status.Completed? && t.items[g].completedAt.None? ==> !ch.completedAt.Keep?
    ensures var (t1, c) := UpdateRuns(t, g, prev, st, ch, now);
            && c.Some? && OnlyRun(t, t1, g, c.value)
            && (Current(t, g).Some? <==> c.value in t.runs)
            && (Current(t, g).Some? ==> c == t.items[g].current)
            && Ended(Current(t, g), t.items[g], ch, now, t1.runs[c.value])
  {
    hide Sound, OpenRun, Moves, Ended, EditRun, Finished, DayOf, UpdateRuns;
    var row := t.items[g];
    FreshRunId(t);
    var cur := CurrentRun(t, g);
    var (t1, c) := MoveRun(t, g, prev, st, ch, now);
    if cur.Some? {
      EditsAfter(t, g, prev, st, ch, now, t1, cur.value);
      EndedFields(Current(t, g), t.runs[cur.value], row, st, ch, now);
    } else {
      OpenRunMoves(t, g, Primary(st.platforms), DayOf(row.startedAt), now);
      EditsAfter(t, g, prev, st, ch, now, t1, t.runSeq + 1);
      EndedFields(None, FreshRun(g, Primary(st.platforms), DayOf(row.startedAt), now), row, st, ch, now);
    }
  }

  lemma StartsRun(t: Tables, g: GameId, prev: Option<Row>, st: ItemState, ch: Change, now: Instant)
    requires Sound(t) && g in t.items && Linked(t, g) && RowIs(t.items[g], st)
    requires st.status.Playing? && (prev.None? || prev.value.status != st.status)
    requires !(ch.completion.Some? && ch.completion.value.BadCompletion?)
    requires ch.startedAt.Keep? && prev.Some? && prev.value.startedAt.Some? ==>
               t.items[g].startedAt == prev.value.startedAt
    ensures var (t1, c) := UpdateRuns(t, g, prev, st, ch, now);
            var was := Current(t, g);
            && c.Some? && OnlyRun(t, t1, g, c.value)
            && if was.Some? && was.value.finishedOn.None? then
                 c == t.items[g].current && WentOn(was.value, t.items[g], ch, t1.runs[c.value])
               else
                 && c.value !in t.runs
                 && Opened(was.Some?, if prev.Some? then prev.value.startedAt else None, t.items[g],
                           ch, now, t1.runs[c.value])
  {
    hide Sound, OpenRun, Moves, WentOn, Opened, EditRun, FirstStart, Today, UpdateRuns;
    var row := t.items[g];
    FreshRunId(t);
    var cur := CurrentRun(t, g);
    var (t1, c) := MoveRun(t, g, prev, st, ch, now);
    if cur.Some? && t.runs[cur.value].finishedOn.None? {
      EditsAfter(t, g, prev, st, ch, now, t1, cur.value);
      WentOnFields(t.runs[cur.value], row, st, ch);
    } else {
      var start := if cur.Some? then Some(Today(ch.playedOn, now)) else FirstStart(row, prev, ch, now);
      OpenRunMoves(t, g, Primary(st.platforms), start, now);
      EditsAfter(t, g, prev, st, ch, now, t1, t.runSeq + 1);
      OpenedFields(cur.Some?, prev, FreshRun(g, Primary(st.platforms), start, now), row, st, ch, now);
    }
  }

  /** A write that enters neither playing nor an end. */
  lemma GoesOn(t: Tables, g: GameId, prev: Option<Row>, st: ItemState, ch: Change, now: Instant)
    requires Sound(t) && g in t.items && Linked(t, g) && RowIs(t.items[g], st)
    requires (prev.Some? && prev.value.status == st.status)
             || st.status.Wishlist? || st.status.Backlog? || st.status.Paused?
    requires !(ch.completion.Some? && ch.completion.value.BadCompletion?)
    requires ch.startedAt.Keep? && prev.Some? && prev.value.startedAt.Some? ==>
               t.items[g].startedAt == prev.value.startedAt
    ensures var (t1, c) := UpdateRuns(t, g, prev, st, ch, now);
            var was := Current(t, g);
            if was.Some? then
              c == t.items[g].current && OnlyRun(t, t1, g, c.value)
              && WentOn(was.value, t.items[g], ch, t1.runs[c.value])
            else if ch.edition.Some? && (st.status.Playing? || st.status.Completed?) then
              && c.Some? && c.value !in t.runs && OnlyRun(t, t1, g, c.value)
              && Opened(false, if prev.Some? then prev.value.startedAt else None, t.items[g], ch, now, t1.runs[c.value])
            else c.None? && t1.runs == t.runs
  {
    hide Sound, OpenRun, Moves, WentOn, Opened, EditRun, FirstStart, Today;
    var row := t.items[g];
    FreshRunId(t);
    var cur := CurrentRun(t, g);
    if cur.Some? {
      WentOnFields(t.runs[cur.value], row, st, ch);
    } else if ch.edition.Some? && (st.status.Playing? || st.status.Completed?) {
      var start := FirstStart(row, prev, ch, now);
      OpenRunMoves(t, g, Primary(st.platforms), start, now);
      OpenedFields(false, prev, FreshRun(g, Primary(st.platforms), start, now), row, st, ch, now);
    }
  }

  // ---- The whole write ----------------------------------------------------

  lemma SavedTimes(t: Tables, g: GameId, st: ItemState, ch: Change, now: Instant)
    ensures var row := SavedRow(t, g, st, ch, now);
            && RowIs(row, st)
            && (g in t.items && ch.startedAt.Keep? && t.items[g].startedAt.Some? ==>
                  row.startedAt == t.items[g].startedAt)
            && (st.status.Completed? && (g !in t.items || t.items[g].status != st.status) ==>
                  (row.completedAt.None? <==> ch.completedAt.Clear?))
    requires !ch.completedAt.BadTime?
  {
  }

  lemma CheckedChange(t: Tables, g: GameId, ch: Change, mode: Mode)
    requires Check(t, g, ch, mode).Ok?
    ensures !(ch.completion.Some? && ch.completion.value.BadCompletion?) && !ch.completedAt.BadTime?
  {
    hide NextState;
  }

  /** What a run shows but for its minutes. */
  ghost predicate SameShown(a: Run, b: Run) {
    a.(minutes := 0) == b.(minutes := 0)
  }

  lemma FieldsShown(was: Option<Run>, again: bool, before: Option<Instant>, row: Row, r: Row, ch: Change, now: Instant,
                    a: Run, b: Run)
    requires SameShown(a, b) && r == row.(minutes := r.minutes, current := r.current, updatedAt := r.updatedAt,
                                          rev := r.rev)
    ensures Ended(was, row, ch, now, a) ==> Ended(was, r, ch, now, b)
    ensures Opened(again, before, row, ch, now, a) ==> Opened(again, before, r, ch, now, b)
    ensures was.Some? && WentOn(was.value, row, ch, a) ==> WentOn(was.value, r, ch, b)
  {
  }

  lemma LoggedRuns(t2: Tables, g: GameId, t3: Tables, c: nat, d: int, source: Source, a: Tables)
    requires g in t2.items && MinutesLogged(t2, g, t3, Some(c), d, source) && OnlyRun(a, t2, g, c)
    ensures c in t2.runs && c in t3.runs && OnlyRun(a, t3, g, c) && SameShown(t2.runs[c], t3.runs[c])
    ensures t3.runs[c].minutes == Max(0, t2.runs[c].minutes + d)
  {
    hide Moves;
  }

  /**
   * Finishing or dropping a game: its current run, a new one if it had none, is ended as the change
   * and the row say; every other run stays as it was. It is left open in one case only, a completion
   * whose date the change blanks.
   */
  lemma ApplyChangeEnds(t: Tables, g: GameId, ch: Change, mode: Mode, now: Instant)
    requires Sound(t) && RunsLinked(t, g) && ApplyChange(t, g, ch, mode, now).Ok?
    requires ch.status == Some(Is(Completed)) || ch.status == Some(Is(Abandoned))
    requires g in t.items ==> ch.status != Some(Is(t.items[g].status))
    ensures var t' := ApplyChange(t, g, ch, mode, now).value;
            && g in t'.items && Is(t'.items[g].status) == ch.status.value && t'.items[g].current.Some?
            && var c := t'.items[g].current.value;
            && OnlyRun(t, t', g, c)
            && (if Current(t, g).Some? then Some(c) == t.items[g].current else c !in t.runs)
            && Ended(Current(t, g), t'.items[g], ch, now, t'.runs[c])
            && (t'.runs[c].finishedOn.None? <==> t'.items[g].status.Completed? && ch.completedAt.Clear?)
  {
    hide ApplyChange, Stages, Sound, Moves, Linked, InOrder, GoodState, NewTotal, SavedRow, UpdateRuns, Ended,
         OnlyRun, Check, RunsMoved, MinutesLogged, SaveItem, LogMinutes;
    var st, t1, t2, c, t3 := WriteStages(t, g, ch, mode, now);
    CheckIsGood(t, g, ch, mode);
    CheckStatus(t, g, ch, mode);
    CheckedChange(t, g, ch, mode);
    hide NextState;
    StagesExist(t, g, ch, now, st, t1, t2, c, t3);
    StagesKeep(t, g, ch, now, st, t1, t2, c, t3);
    MovedKeeps(t, t1, g);
    SavedTimes(t, g, st, ch, now);
    RatingGood(st);
    EndsRun(t1, g, RowOf(t, g), st, ch, now);
    StagesUpdate(t, g, ch, now, st, t1, t2, c, t3);
    CurrentKept(t, t1, g, st, ch, now);
    Rebase(t, t1, t2, g, c.value);
    var d := NewTotal(t2.items[g].minutes, ch) - t2.items[g].minutes;
    LoggedRuns(t2, g, t3, c.value, d, DeltaSource(ch), t);
    RowsThrough(t1, t2, t3, g, c, d, DeltaSource(ch));
    FieldsShown(Current(t, g), false, None, t1.items[g], t3.items[g], ch, now, t2.runs[c.value], t3.runs[c.value]);
    EndedOpen(Current(t, g), t3.items[g], ch, now, t3.runs[c.value]);
  }

  /**
   * Starting to play: an open current run goes on; without one, or after its end, a new one begins
   * with the days, platform and edition the change and the row give. Every other run stays as it was.
   */
  lemma ApplyChangeStarts(t: Tables, g: GameId, ch: Change, mode: Mode, now: Instant)
    requires Sound(t) && RunsLinked(t, g) && ApplyChange(t, g, ch, mode, now).Ok?
    requires ch.status == Some(Is(Playing)) && (g in t.items ==> !t.items[g].status.Playing?)
    ensures var t' := ApplyChange(t, g, ch, mode, now).value;
            && g in t'.items && t'.items[g].status.Playing? && t'.items[g].current.Some?
            && var c, was := t'.items[g].current.value, Current(t, g);
            && OnlyRun(t, t', g, c)
            && if was.Some? && was.value.finishedOn.None? then
                 Some(c) == t.items[g].current && WentOn(was.value, t'.items[g], ch, t'.runs[c])
               else
                 && c !in t.runs
                 && Opened(was.Some?, if g in t.items then t.items[g].startedAt else None, t'.items[g],
                           ch, now, t'.runs[c])
  {
    hide ApplyChange, Stages, Sound, Moves, Linked, InOrder, GoodState, NewTotal, SavedRow, UpdateRuns, WentOn, Opened,
         OnlyRun, Check, RunsMoved, MinutesLogged, SaveItem, LogMinutes;
    var st, t1, t2, c, t3 := WriteStages(t, g, ch, mode, now);
    CheckIsGood(t, g, ch, mode);
    CheckStatus(t, g, ch, mode);
    CheckedChange(t, g, ch, mode);
    hide NextState;
    StagesExist(t, g, ch, now, st, t1, t2, c, t3);
    StagesKeep(t, g, ch, now, st, t1, t2, c, t3);
    MovedKeeps(t, t1, g);
    SavedTimes(t, g, st, ch, now);
    StartsRun(t1, g, RowOf(t, g), st, ch, now);
    StagesUpdate(t, g, ch, now, st, t1, t2, c, t3);
    CurrentKept(t, t1, g, st, ch, now);
    Rebase(t, t1, t2, g, c.value);
    var d := NewTotal(t2.items[g].minutes, ch) - t2.items[g].minutes;
    LoggedRuns(t2, g, t3, c.value, d, DeltaSource(ch), t);
    RowsThrough(t1, t2, t3, g, c, d, DeltaSource(ch));
    var was, before := Current(t, g), if g in t.items then t.items[g].startedAt else None;
    FieldsShown(was, was.Some?, before, t1.items[g], t3.items[g], ch, now, t2.runs[c.value], t3.runs[c.value]);
  }

  /**
   * A write that enters neither playing nor an end: the current run, if there is one, takes the
   * change's edits; naming an edition while playing or completed opens one if there is none; the other
   * runs, and without a current run all of them, stay as they were.
   */
  lemma ApplyChangeGoesOn(t: Tables, g: GameId, ch: Change, mode: Mode, now: Instant)
    requires Sound(t) && RunsLinked(t, g) && ApplyChange(t, g, ch, mode, now).Ok?
    requires g in ApplyChange(t, g, ch, mode, now).value.items
    requires var s := ApplyChange(t, g, ch, mode, now).value.items[g].status;
             (g in t.items && t.items[g].status == s) || s.Wishlist? || s.Backlog? || s.Paused?
    ensures var t' := ApplyChange(t, g, ch, mode, now).value;
            var was, row := Current(t, g), t'.items[g];
            if was.Some? then
              && row.current == t.items[g].current && OnlyRun(t, t', g, row.current.value)
              && WentOn(was.value, row, ch, t'.runs[row.current.value])
            else if ch.edition.Some? && (row.status.Playing? || row.status.Completed?) then
              && row.current.Some? && row.current.value !in t.runs && OnlyRun(t, t', g, row.current.value)
              && Opened(false, if g in t.items then t.items[g].startedAt else None, row, ch, now,
                        t'.runs[row.current.value])
            else row.current.None? && t'.runs == t.runs
  {
    hide ApplyChange, Stages, Sound, Moves, Linked, InOrder, GoodState, NewTotal, SavedRow, UpdateRuns, WentOn, Opened,
         OnlyRun, Check, RunsMoved, MinutesLogged, SaveItem, LogMinutes;
    var st, t1, t2, c, t3 := WriteStages(t, g, ch, mode, now);
    CheckIsGood(t, g, ch, mode);
    CheckedChange(t, g, ch, mode);
    hide NextState;
    StagesExist(t, g, ch, now, st, t1, t2, c, t3);
    StagesKeep(t, g, ch, now, st, t1, t2, c, t3);
    MovedKeeps(t, t1, g);
    SavedTimes(t, g, st, ch, now);
    var d := NewTotal(t2.items[g].minutes, ch) - t2.items[g].minutes;
    RowsThrough(t1, t2, t3, g, c, d, DeltaSource(ch));
    GoesOn(t1, g, RowOf(t, g), st, ch, now);
    StagesUpdate(t, g, ch, now, st, t1, t2, c, t3);
    CurrentKept(t, t1, g, st, ch, now);
    if c.Some? {
      Rebase(t, t1, t2, g, c.value);
      LoggedRuns(t2, g, t3, c.value, d, DeltaSource(ch), t);
      var was, before := Current(t, g), if g in t.items then t.items[g].startedAt else None;
      FieldsShown(was, false, before, t1.items[g], t3.items[g], ch, now, t2.runs[c.value], t3.runs[c.value]);
    } else {
      NoRunLogged(t2, g, t3, d, DeltaSource(ch));
    }
  }

  lemma NoRunLogged(t2: Tables, g: GameId, t3: Tables, d: int, source: Source)
    requires g in t2.items && MinutesLogged(t2, g, t3, None, d, source)
    ensures t3.runs == t2.runs
  {
    hide Moves;
    forall id | id in t2.runs ensures t3.runs[id] == t2.runs[id] {}
  }

  lemma EndedOpen(was: Option<Run>, row: Row, ch: Change, now: Instant, run: Run)
    requires Ended(was, row, ch, now, run)
    ensures run.finishedOn.None? <==> row.status.Completed? && row.completedAt.None?
  {
  }

  lemma RatingGood(st: ItemState)
    requires GoodState(st)
    ensures 0 <= st.rating
  {
    hide Text.Tidy;
  }

  lemma StagesUpdate(t: Tables, g: GameId, ch: Change, now: Instant, st: ItemState, t1: Tables, t2: Tables,
                     c: Option<nat>, t3: Tables)
    requires g in t1.items && Stages(t, g, ch, now, st, t1, t2, c, t3)
    ensures UpdateRuns(t1, g, RowOf(t, g), st, ch, now) == (t2, c)
  {
    hide SaveItem, UpdateRuns, LogMinutes;
  }

  lemma CurrentKept(t: Tables, t1: Tables, g: GameId, st: ItemState, ch: Change, now: Instant)
    requires g in t1.items && t1.runs == t.runs && t1.items[g] == SavedRow(t, g, st, ch, now).(rev := t1.items[g].rev)
    ensures Current(t1, g) == Current(t, g) && (g in t.items ==> t1.items[g].current == t.items[g].current)
  {
  }

  lemma Rebase(t: Tables, t1: Tables, t2: Tables, g: GameId, c: nat)
    requires t1.runs == t.runs && OnlyRun(t1, t2, g, c)
    ensures OnlyRun(t, t2, g, c)
  {
  }

  lemma RowsThrough(t1: Tables, t2: Tables, t3: Tables, g: GameId, c: Option<nat>, d: int, source: Source)
    requires g in t1.items && RunsMoved(t1, g, t2, c) && g in t2.items && MinutesLogged(t2, g, t3, c, d, source)
    ensures g in t3.items && t3.items[g].current == c
    ensures t3.items[g] == t1.items[g].(minutes := t3.items[g].minutes, current := c,
                                        updatedAt := t3.items[g].updatedAt,
                                        rev := t3.items[g].rev)
  {
    hide Moves, Linked, KeepsOrder;
  }
}
