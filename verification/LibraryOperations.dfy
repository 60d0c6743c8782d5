// What deleting, bulk editing and the journal's operations leave, stated on
// the tables before and after a committed step.
module LibraryOperations {
  import opened Prelude
  import opened LibraryTypes
  import opened LibraryTables
  import opened LibraryLedger
  import opened LibraryWrites
  import opened LibraryUndo
  import opened LibraryImport
  import opened LibraryHistory
  import opened LibraryInvariant
  import opened LibraryEffects
  import Text

  // ---- Deleting games -----------------------------------------------------

  /** r is t with these games, their runs and their sessions gone and nothing else. */
  ghost predicate Gone(t: Tables, r: Tables, ids: set<GameId>) {
    && (forall g :: g in r.items <==> g in t.items && g !in ids)
    && (forall g | g in r.items :: r.items[g] == t.items[g])
    && (forall id | id in t.runs && t.runs[id].game !in ids :: id in r.runs && r.runs[id] == t.runs[id])
    && (forall id | id in r.runs :: id in t.runs && r.runs[id] == t.runs[id] && r.runs[id].game !in ids)
    && (forall id | id in t.sessions && t.sessions[id].game !in ids ::
          id in r.sessions && r.sessions[id] == t.sessions[id])
    && (forall id | id in r.sessions ::
          id in t.sessions && r.sessions[id] == t.sessions[id] && r.sessions[id].game !in ids)
    && (forall g | g in t.items && g in ids :: g in r.tombs && RevOf(t) < r.tombs[g])
    && RevOf(t) <= RevOf(r)
  }

  lemma OneItemGone(t: Tables, g: GameId)
    requires Sound(t) && g in t.items
    ensures Gone(t, DeleteItem(t, g), {g}) && Sound(DeleteItem(t, g))
  {
    ItemIsSound(t, g);
    ItemGone(t, g);
    DeleteItemLeaves(t, g);
    DeleteItemSteps(t, g);
    hide Sound, Evolves;
  }

  lemma GoneTwice(t: Tables, m: Tables, r: Tables, a: set<GameId>, b: set<GameId>)
    requires Gone(t, m, a) && Gone(m, r, b) && Evolves(m, r)
    ensures Gone(t, r, a + b)
  {
    forall g | g in t.items && g in a + b ensures g in r.tombs && RevOf(t) < r.tombs[g] {
      if g in a {
        assert g in m.tombs && g !in r.items;
        assert Buried(m, r, g);
      }
    }
    hide Evolves;
  }

  lemma NoneGone(t: Tables)
    requires Sound(t)
    ensures Gone(t, t, {})
  {
    hide Sound;
  }

  function Ids(ids: seq<GameId>): set<GameId> {
    set g | g in ids
  }

  lemma {:induction false} EachGone(d: Deleting, ids: seq<GameId>, requireAll: bool)
    requires Sound(d.tables) && DeleteEach(d, ids, requireAll).Ok?
    ensures var r := DeleteEach(d, ids, requireAll).value;
            && Gone(d.tables, r.tables, Ids(ids)) && Sound(r.tables) && Evolves(d.tables, r.tables)
            && r.timer == (if d.timer.Some? && d.timer.value.game in d.tables.items && d.timer.value.game in ids
                           then None else d.timer)
            && (requireAll && DistinctIds(ids) ==> forall g | g in ids :: g in d.tables.items)
    decreases ids
  {
    hide Sound, Evolves, Gone, DeleteItem, TakeSnapshot;
    EvolvesReflexive(d.tables);
    NoneGone(d.tables);
    if ids == [] {
      assert Ids(ids) == {};
    } else if ids[0] !in d.tables.items {
      EachGone(d, ids[1..], requireAll);
      NotThere(d.tables, DeleteEach(d, ids[1..], requireAll).value.tables, ids);
    } else {
      var g := ids[0];
      var t1 := DeleteItem(d.tables, g);
      OneItemGone(d.tables, g);
      DeleteItemSteps(d.tables, g);
      assert Steps(d.tables, t1, g);
      var timer := if d.timer.Some? && d.timer.value.game == g then None else d.timer;
      var d1 := Deleting(t1, timer, d.snaps + [TakeSnapshot(d.tables, g)]);
      EachGone(d1, ids[1..], requireAll);
      var r := DeleteEach(d1, ids[1..], requireAll).value;
      GoneTwice(d.tables, t1, r.tables, {g}, Ids(ids[1..]));
      assert Ids(ids) == {g} + Ids(ids[1..]);
      EvolvesTransitive(d.tables, t1, r.tables);
      GoneItems(d.tables, t1, {g});
    }
  }

  lemma GoneItems(t: Tables, r: Tables, ids: set<GameId>)
    requires Gone(t, r, ids)
    ensures forall g :: g in r.items <==> g in t.items && g !in ids
  {
  }

  lemma NotThere(t: Tables, r: Tables, ids: seq<GameId>)
    requires ids != [] && ids[0] !in t.items && Sound(t) && Gone(t, r, Ids(ids[1..]))
    ensures Gone(t, r, Ids(ids))
  {
    forall id | id in t.runs ensures t.runs[id].game != ids[0] { RunIsSound(t, id); }
    forall id | id in t.sessions ensures t.sessions[id].game != ids[0] { SessionIsSound(t, id); }
    assert Ids(ids) == {ids[0]} + Ids(ids[1..]);
    hide Sound;
  }

  /**
   * Deleting games takes exactly those away, with their playthroughs and sessions, leaves a tombstone
   * newer than what any client knows for each that was there, and stops a timer running on one of
   * them. Where all must be there a missing one refuses the whole.
   */
  lemma DeletedGames(db: Db, ids: seq<GameId>, requireAll: bool, token: nat, now: Instant)
    requires Inv(db) && DistinctIds(ids) && DeleteMany(db, ids, requireAll, token, now).Ok?
    ensures var r := DeleteMany(db, ids, requireAll, token, now).value;
            && Gone(db.tables, r.tables, Ids(ids))
            && r.timer == (if db.timer.Some? && db.timer.value.game in db.tables.items && db.timer.value.game in ids
                           then None else db.timer)
            && (requireAll ==> forall g | g in ids :: g in db.tables.items)
  {
    hide Sound, AllLinked, LogsGood, DeleteEach, SaveUndo, Gone, Evolves;
    EachGone(Deleting(db.tables, db.timer, []), ids, requireAll);
    var d := DeleteEach(Deleting(db.tables, db.timer, []), ids, requireAll).value;
    SaveUndoKeepsTables(db.(timer := d.timer), d.tables, d.snaps, token, now);
  }

  // ---- Bulk edits ---------------------------------------------------------

  lemma {:induction false} DedupedMembers(ids: seq<GameId>, seen: set<GameId>)
    ensures forall g :: g in DedupeIds(ids, seen) <==> g > 0 && g in ids && g !in seen
    decreases ids
  {
    if ids != [] {
      DedupedMembers(ids[1..], if ids[0] > 0 && ids[0] !in seen then seen + {ids[0]} else seen);
      assert forall g :: g in ids <==> g == ids[0] || g in ids[1..];
    }
  }

  /** kept is what stood at these places, each the first of its id, in their order. */
  ghost predicate FirstPlaces(ids: seq<GameId>, at: seq<nat>, kept: seq<GameId>) {
    && |at| == |kept|
    && (forall i | 0 <= i < |at| ::
          at[i] < |ids| && kept[i] == ids[at[i]] && forall b | 0 <= b < at[i] :: ids[b] != kept[i])
    && (forall i, j | 0 <= i < j < |at| :: at[i] < at[j])
  }

  lemma Shifted(ids: seq<GameId>, at: seq<nat>, kept: seq<GameId>) returns (moved: seq<nat>)
    requires ids != [] && FirstPlaces(ids[1..], at, kept) && ids[0] !in kept
    ensures FirstPlaces(ids, moved, kept) && FirstPlaces(ids, [0] + moved, [ids[0]] + kept)
  {
    moved := seq(|at|, i requires 0 <= i < |at| => at[i] + 1);
    forall i | 0 <= i < |at|
      ensures moved[i] < |ids| && kept[i] == ids[moved[i]] && forall b | 0 <= b < moved[i] :: ids[b] != kept[i]
    {
      assert kept[i] in kept;
      forall b | 0 <= b < moved[i] ensures ids[b] != kept[i] {
        if b > 0 { assert ids[1..][b - 1] == ids[b]; }
      }
    }
  }

  /** The ids looked at: the positive ones, each where it stood first. */
  lemma {:induction false} DedupedIds(ids: seq<GameId>, seen: set<GameId>) returns (at: seq<nat>)
    ensures FirstPlaces(ids, at, DedupeIds(ids, seen))
    ensures forall g :: g in DedupeIds(ids, seen) <==> g > 0 && g in ids && g !in seen
    decreases ids
  {
    hide FirstPlaces;
    DedupedMembers(ids, seen);
    if ids == [] {
      at := [];
      assert FirstPlaces(ids, at, []) by { NoPlaces(ids); }
    } else {
      var first := ids[0] > 0 && ids[0] !in seen;
      var known := if first then seen + {ids[0]} else seen;
      var later := DedupedIds(ids[1..], known);
      var kept := DedupeIds(ids[1..], known);
      at := Shifted(ids, later, kept);
      if first { at := [0] + at; }
    }
  }

  lemma NoPlaces(ids: seq<GameId>)
    ensures FirstPlaces(ids, [], [])
  {
  }

  /** Adding labels and then taking some away, by their keys. */
  lemma EditedTags(cur: seq<string>, add: seq<string>, remove: seq<string>)
    ensures Text.Tidy(EditTags(cur, add, remove))
    ensures forall k :: k in Text.Keys(EditTags(cur, add, remove)) <==>
                        k != "" && (k in Text.Keys(cur) || k in Text.Keys(add)) && k !in Text.Keys(remove)
  {
    Text.DistinctIsTidy(cur + add, Text.Keys(remove));
    Text.KeysConcat(cur, add);
    hide Text.Tidy, Text.Keys, Text.Distinct;
  }

  /** A row after a bulk edit: the status and tags asked for, the dates that go with a status, all else as it was. */
  ghost predicate BulkEdited(was: Row, a: BulkAction, now: Instant, row: Row) {
    && row.status == (if a.status.Some? && a.status.value.Is? then a.status.value.status else was.status)
    && (if a.addTags == [] && a.removeTags == [] then row.tags == was.tags
        else forall k :: k in Text.Keys(row.tags) <==>
               k != "" && (k in Text.Keys(was.tags) || k in Text.Keys(a.addTags)) && k !in Text.Keys(a.removeTags))
    && TimeIs(Keep, was.startedAt, row.status.Playing? && !was.status.Playing?, now, row.startedAt)
    && TimeIs(Keep, was.completedAt, row.status.Completed? && !was.status.Completed?, now, row.completedAt)
    && row == was.(status := row.status, tags := row.tags, startedAt := row.startedAt, completedAt := row.completedAt,
                   platform := row.platform, current := row.current, rev := row.rev, updatedAt := now)
  }

  lemma BulkRow(t: Tables, g: GameId, a: BulkAction, now: Instant)
    requires Sound(t) && RunsLinked(t, g) && g in t.items
    requires ApplyChange(t, g, BulkChange(a, t.items[g].tags), Patch, now).Ok?
    ensures var t' := ApplyChange(t, g, BulkChange(a, t.items[g].tags), Patch, now).value;
            g in t'.items && BulkEdited(t.items[g], a, now, t'.items[g])
  {
    hide ApplyChange, Sound, Linked, EditTags, TimeIs, Text.Keys, Text.Tidy;
    var ch := BulkChange(a, t.items[g].tags);
    ApplyChangeSaves(t, g, ch, Patch, now);
    ItemIsSound(t, g);
    EditedTags(t.items[g].tags, a.addTags, a.removeTags);
    hide RowGood;
  }

  lemma {:induction false} BulkRows(b: Bulking, ids: seq<GameId>, a: BulkAction, now: Instant)
    requires Ready(b.tables) && DistinctIds(ids) && BulkEach(b, ids, a, now).Ok?
    ensures var r := BulkEach(b, ids, a, now).value.tables;
            && (forall g | g in ids && g in b.tables.items ::
                  g in r.items && BulkEdited(b.tables.items[g], a, now, r.items[g]))
            && (forall g | g !in ids || g !in b.tables.items :: RowOf(r, g) == RowOf(b.tables, g))
    decreases ids
  {
    hide Sound, ApplyChange, TakeSnapshot, KeepsOrder, AllLinked, Linked, BulkEdited, BulkChange, Evolves, Covered;
    if ids != [] {
      var g := ids[0];
      var tags := if g in b.tables.items then b.tables.items[g].tags else [];
      var w := ApplyChange(b.tables, g, BulkChange(a, tags), Patch, now);
      assert forall h | h in ids[1..] :: h != g;
      LinkedAt(b.tables, g);
      if w.Ok? {
        ApplyChangeMoves(b.tables, g, BulkChange(a, tags), Patch, now);
        PatchedIsThere(b.tables, g, BulkChange(a, tags), now);
        BulkRow(b.tables, g, a, now);
        InOrderElsewhere(b.tables, w.value, g);
        BulkRows(Bulking(w.value, b.snaps + [TakeSnapshot(b.tables, g)]), ids[1..], a, now);
      } else {
        PatchedIsThere(b.tables, g, BulkChange(a, tags), now);
        BulkRows(b, ids[1..], a, now);
      }
    }
  }

  /** A patch finds no row exactly when the item is not in the library. */
  lemma PatchedIsThere(t: Tables, g: GameId, ch: Change, now: Instant)
    requires Sound(t) && RunsLinked(t, g)
    ensures ApplyChange(t, g, ch, Patch, now).Ok? ==> g in t.items
    ensures ApplyChange(t, g, ch, Patch, now) == Err(NotFound) ==> g !in t.items
  {
    hide Sound, Linked, ApplyChange, FieldRefused, Text.Trim;
    ApplyChangeRefuses(t, g, ch, Patch, now);
  }

  /**
   * A bulk edit that commits has given every chosen game in the library the status and tags asked for
   * and left every other row alone; with the remove flag the chosen games are gone instead. None or
   * more than 500 ids, or nothing to do, is refused.
   */
  lemma BulkDoes(db: Db, a: BulkAction, token: nat, now: Instant)
    requires Inv(db)
    ensures var chosen := set g | g in a.games && g > 0;
            var r := Bulk(db, a, token, now);
            && (chosen == {} || |chosen| > 500 ==> r == Err(Invalid("invalid_selection")))
            && (a.remove && r == Err(Invalid("invalid_selection")) ==> chosen == {} || |chosen| > 500)
            && (r.Ok? && a.remove ==> Gone(db.tables, r.value.tables, chosen))
            && (r.Ok? && !a.remove ==>
                  && (a.status.Some? || a.addTags != [] || a.removeTags != [])
                  && (forall g | g in chosen && g in db.tables.items ::
                        g in r.value.tables.items && BulkEdited(db.tables.items[g], a, now, r.value.tables.items[g]))
                  && (forall g | g !in chosen || g !in db.tables.items ::
                        RowOf(r.value.tables, g) == RowOf(db.tables, g)))
  {
    hide Sound, LogsGood, AllLinked, DeleteMany, BulkEach, SaveUndo, DedupeIds, BulkEdited, Gone;
    var ids := DedupeIds(a.games, {});
    var at := DedupedIds(a.games, {});
    DedupedDistinct(a.games, {});
    var chosen := set g | g in a.games && g > 0;
    assert Ids(ids) == chosen;
    DistinctSize(ids);
    if a.remove {
      if Bulk(db, a, token, now).Ok? {
        DeletedGames(db, ids, false, token, now);
      }
      NotSelection(db, ids, token, now);
    } else if Bulk(db, a, token, now).Ok? {
      BulkRows(Bulking(db.tables, []), ids, a, now);
      var b := BulkEach(Bulking(db.tables, []), ids, a, now).value;
      SaveUndoKeepsTables(db, b.tables, b.snaps, token, now);
    }
  }

  lemma {:induction false} DistinctSize(ids: seq<GameId>)
    requires DistinctIds(ids)
    ensures |Ids(ids)| == |ids|
  {
    if ids != [] {
      DistinctSize(ids[1..]);
      assert Ids(ids) == {ids[0]} + Ids(ids[1..]);
      assert ids[0] !in ids[1..];
    } else {
      assert Ids(ids) == {};
    }
  }

  lemma NotSelection(db: Db, ids: seq<GameId>, token: nat, now: Instant)
    ensures DeleteMany(db, ids, false, token, now) != Err(Invalid("invalid_selection"))
  {
    hide TakeSnapshot, DeleteEach;
    NotRefused(Deleting(db.tables, db.timer, []), ids);
  }

  lemma {:induction false} NotRefused(d: Deleting, ids: seq<GameId>)
    ensures DeleteEach(d, ids, false).Ok?
    decreases ids
  {
    hide DeleteItem, TakeSnapshot;
    if ids != [] {
      NotRefused(d, ids[1..]);
      var timer := if d.timer.Some? && d.timer.value.game == ids[0] then None else d.timer;
      NotRefused(Deleting(DeleteItem(d.tables, ids[0]), timer, d.snaps + [TakeSnapshot(d.tables, ids[0])]), ids[1..]);
    }
  }

  // ---- Sessions -----------------------------------------------------------

  /** One more session on the item's current run, and its minutes on the item's and the run's totals. */
  ghost predicate SessionAdded(t: Tables, r: Tables, g: GameId, day: Day, minutes: int, source: Source, now: Instant) {
    && g in t.items && g in r.items && t.sessSeq + 1 !in t.sessions
    && r.sessions == t.sessions[t.sessSeq + 1 := Session(g, t.items[g].current, day, minutes, "", source, now)]
    && r.items[g] == t.items[g].(minutes := Max(0, t.items[g].minutes + minutes), updatedAt := now,
                                 rev := r.items[g].rev)
    && (forall h | h in t.items && h != g :: h in r.items && r.items[h] == t.items[h])
    && r.runs.Keys == t.runs.Keys
    && (forall id | id in t.runs ::
          r.runs[id] == t.runs[id].(
            minutes := if t.items[g].current == Some(id) then Max(0, t.runs[id].minutes + minutes)
                       else t.runs[id].minutes))
  }

  lemma LoggedOnCurrent(db: Db, g: GameId, day: Day, minutes: int, source: Source, token: nat, now: Instant)
    requires Inv(db)
    ensures var r := LogOnCurrent(db, g, day, minutes, source, token, now);
            && (g !in db.tables.items ==> r == Err(NotFound))
            && (r.Ok? ==> SessionAdded(db.tables, r.value.tables, g, day, minutes, source, now)
                          && r.value.timer == db.timer)
            && (r.Err? ==> r == Err(NotFound) || r == Err(Constraint))
            && (r == Err(NotFound) ==> g !in db.tables.items)
  {
    hide Sound, LogsGood, AllLinked, SaveUndo, TakeSnapshot, InsertSession;
    var t := db.tables;
    FreshSessionId(t);
    if g in t.items {
      var s := Session(g, t.items[g].current, day, minutes, "", source, now);
      InsertRefusal(t, t.sessSeq + 1, s, now);
      if InsertSession(t, t.sessSeq + 1, s, now).Ok? {
        InsertSessionMinutes(t, t.sessSeq + 1, s, now);
        InsertSessionRow(t, t.sessSeq + 1, s, now);
        var t' := InsertSession(t, t.sessSeq + 1, s, now).value;
        SaveRefusal(db, t', [TakeSnapshot(t, g)], token, now);
        SaveUndoKeepsTables(db, t', [TakeSnapshot(t, g)], token, now);
      }
    }
  }

  lemma InsertRefusal(t: Tables, id: nat, s: Session, now: Instant)
    ensures InsertSession(t, id, s, now).Err? ==> InsertSession(t, id, s, now) == Err(Constraint)
  {
  }

  lemma SaveRefusal(db: Db, t: Tables, snaps: seq<Snapshot>, token: nat, now: Instant)
    ensures SaveUndo(db, t, snaps, token, now).Err? ==> SaveUndo(db, t, snaps, token, now) == Err(Constraint)
  {
  }

  /** A synced session: positive minutes on a readable day, logged on the current run. */
  lemma SyncedSession(db: Db, g: GameId, minutes: int, playedOn: DayText, source: Source, token: nat, now: Instant)
    requires Inv(db)
    ensures var r := LogSynced(db, g, minutes, playedOn, source, token, now);
            && (minutes <= 0 ==> r == Err(Invalid("invalid_minutes")))
            && (minutes > 0 && !playedOn.ADay? ==> r == Err(Invalid("invalid_date")))
            && (minutes > 0 && playedOn.ADay? && g !in db.tables.items ==> r == Err(NotFound))
            && (r.Ok? ==>
                  && minutes > 0 && playedOn.ADay?
                  && SessionAdded(db.tables, r.value.tables, g, playedOn.day, minutes, source, now))
  {
    hide Inv, LogOnCurrent, SessionAdded;
    if minutes > 0 && playedOn.ADay? { LoggedOnCurrent(db, g, playedOn.day, minutes, source, token, now); }
  }

  /** Stopped minutes: as corrected, else as elapsed to the nearest minute, between one minute and a day. */
  ghost predicate StoppedMinutes(minutes: int, elapsed: int, m: int) {
    if minutes > 0 then m == if minutes < 1440 then minutes else 1440
    else if elapsed < 90 then m == 1
    else if elapsed >= 86370 then m == 1440
    else 60 * m - 30 <= elapsed < 60 * m + 30
  }

  lemma TimerRounds(minutes: int, startedAt: Instant, now: Instant)
    ensures StoppedMinutes(minutes, now - startedAt, TimerMinutes(minutes, startedAt, now))
  {
  }

  /** Stopping a timer always stops it; what it logs, if it is to log, is one session of its game, or nothing. */
  lemma StoppedTimer(db: Db, log: bool, minutes: int, playedOn: DayText, token: nat, now: Instant)
    requires Inv(db)
    ensures var (r, err) := StopTimer(db, log, minutes, playedOn, token, now);
            && r.timer.None?
            && (db.timer.None? ==> r == db && err == Some(NoTimer))
            && (db.timer.Some? && !log ==> r == db.(timer := None) && err.None?)
            && (db.timer.Some? && log && err.Some? ==> r == db.(timer := None))
            && (db.timer.Some? && log && err.None? ==>
                  var id := db.tables.sessSeq + 1;
                  && id in r.tables.sessions
                  && var m := r.tables.sessions[id].minutes;
                  && StoppedMinutes(minutes, now - db.timer.value.startedAt, m)
                  && SessionAdded(db.tables, r.tables, db.timer.value.game,
                                  if playedOn.ADay? then playedOn.day else now / 86400, m, Timer, now))
  {
    hide LogsGood, LogOnCurrent, TimerMinutes, StoppedMinutes, Sound, AllLinked;
    var stopped := db.(timer := None);
    if db.timer.Some? && log {
      var m := TimerMinutes(minutes, db.timer.value.startedAt, now);
      TimerRounds(minutes, db.timer.value.startedAt, now);
      SameTablesKeeps(db, stopped);
      LoggedOnCurrent(stopped, db.timer.value.game, Today(playedOn, now), m, Timer, token, now);
    }
    hide Inv;
  }

  /** Deleting a session takes it and its minutes away. */
  lemma RemovedSession(db: Db, id: nat, token: nat, now: Instant)
    requires Inv(db)
    ensures var r := RemoveSession(db, id, token, now);
            && (id !in db.tables.sessions ==> r == Err(NotFound))
            && (r.Ok? ==>
                  var t, s, t' := db.tables, db.tables.sessions[id], r.value.tables;
                  && t'.sessions == t.sessions - {id}
                  && t'.items.Keys == t.items.Keys && t'.runs.Keys == t.runs.Keys && s.game in t.items
                  && t'.items[s.game].minutes == Max(0, t.items[s.game].minutes - s.minutes)
                  && (forall run | run in t.runs :: t'.runs[run] == t.runs[run].(
                        minutes := if s.run == Some(run) then Max(0, t.runs[run].minutes - s.minutes)
                                   else t.runs[run].minutes)))
  {
    hide Sound, LogsGood, AllLinked, SaveUndo, TakeSnapshot, DeleteSession;
    var t := db.tables;
    if id in t.sessions {
      SessionIsSound(t, id);
      DeleteSessionMinutes(t, id);
      SaveUndoKeepsTables(db, DeleteSession(t, id), [TakeSnapshot(t, t.sessions[id].game)], token, now);
    }
  }

  /**
   * A session as edited: what is absent is kept; new minutes are positive and at most a day where they
   * are not imported.
   */
  ghost predicate SessionEdited(was: Session, e: SessionEdit, s: Session) {
    && s == was.(playedOn := s.playedOn, minutes := s.minutes, note := s.note)
    && (if e.playedOn.Some? then ADay(s.playedOn) == e.playedOn.value else s.playedOn == was.playedOn)
    && s.minutes == (if e.minutes.Some? then e.minutes.value else was.minutes)
    && s.note == (if e.note.Some? then Text.Trim(e.note.value) else was.note)
    && (e.minutes.Some? ==> 0 < e.minutes.value && (e.minutes.value <= 1440 || was.source in {Legacy, Import, Steam}))
    && (e.note.Some? ==> |e.note.value| <= 500)
  }

  /** One session is edited and its item's total shifted by the difference; the other sessions stay. */
  ghost predicate OnlySessionEdited(t: Tables, id: nat, e: SessionEdit, t': Tables) {
    id in t.sessions && id in t'.sessions &&
    var s, s' := t.sessions[id], t'.sessions[id];
    && t'.sessions == t.sessions[id := s']
    && SessionEdited(s, e, s')
    && s.game in t.items && s.game in t'.items
    && t'.items[s.game].minutes == Max(0, t.items[s.game].minutes - s.minutes + s'.minutes)
  }

  /** Editing a session leaves the day, minutes and note asked for, keeps the rest, and shifts the item's total. */
  lemma EditedSession(db: Db, id: nat, e: SessionEdit, token: nat, now: Instant)
    requires Inv(db)
    ensures var r := EditSession(db, id, e, token, now);
            && (id !in db.tables.sessions ==> r == Err(NotFound))
            && (r == Err(NotFound) ==> id !in db.tables.sessions)
            && (r.Ok? ==> OnlySessionEdited(db.tables, id, e, r.value.tables))
  {
    hide Sound, LogsGood, AllLinked, SaveUndo, TakeSnapshot, UpdateSession, Text.Trim;
    var t := db.tables;
    if id in t.sessions {
      var s := t.sessions[id];
      var day := if e.playedOn.Some? && e.playedOn.value.ADay? then e.playedOn.value.day else s.playedOn;
      var minutes := if e.minutes.Some? then e.minutes.value else s.minutes;
      var note := if e.note.Some? then Text.Trim(e.note.value) else s.note;
      SessionIsSound(t, id);
      UpdateErr(t, id, day, minutes, note);
      if UpdateSession(t, id, day, minutes, note).Ok? {
        UpdateSessionMinutes(t, id, day, minutes, note);
        SaveRefusal(db, UpdateSession(t, id, day, minutes, note).value, [TakeSnapshot(t, s.game)], token, now);
        SaveUndoKeepsTables(db, UpdateSession(t, id, day, minutes, note).value, [TakeSnapshot(t, s.game)], token, now);
      }
    }
  }

  // ---- Playthroughs -------------------------------------------------------

  /** A playthrough as edited: what is absent is kept, a blank day, completion or rating of 0 clears. */
  ghost predicate RunEdited(was: Run, e: RunEdit, run: Run) {
    && run.platform == (if e.platform.Some? then Text.Trim(e.platform.value) else was.platform)
    && (e.startedOn.None? ==> run.startedOn == was.startedOn)
    && (e.startedOn.Some? ==> run.startedOn == if e.startedOn.value.ADay? then Some(e.startedOn.value.day) else None)
    && (e.finishedOn.None? ==> run.finishedOn == was.finishedOn)
    && (e.finishedOn.Some? ==>
          run.finishedOn == if e.finishedOn.value.ADay? then Some(e.finishedOn.value.day) else None)
    && (e.completion.None? ==> run.completion == was.completion)
    && (e.completion.Some? ==>
          run.completion == if e.completion.value.ACompletion? then Some(e.completion.value.completion) else None)
    && (e.rating.None? ==> run.rating == was.rating)
    && (e.rating.Some? ==> run.rating == if e.rating.value == 0 then None else Some(e.rating.value))
    && run.note == (if e.note.Some? then e.note.value else was.note)
    && run.game == was.game && run.minutes == was.minutes && run.createdAt == was.createdAt
    && run.edition == was.edition
  }

  lemma EditIs(was: Run, e: RunEdit)
    ensures RunEdited(was, e, EditedRun(was, e)) && (e == NO_RUN_EDIT ==> EditedRun(was, e) == was)
  {
    hide Text.Trim;
  }

  /** One run is edited; sessions, other runs and all rows stay, but for the revision. */
  ghost predicate OnlyRunEdited(t: Tables, id: nat, e: RunEdit, t': Tables) {
    && id in t.runs && id in t'.runs
    && t'.runs == t.runs[id := t'.runs[id]] && RunEdited(t.runs[id], e, t'.runs[id])
    && t'.sessions == t.sessions && t'.items.Keys == t.items.Keys
    && (forall h | h in t.items :: t'.items[h] == t.items[h].(rev := t'.items[h].rev))
    && (e != NO_RUN_EDIT ==> RevOf(t') == RevOf(t) + 1)
  }

  /**
   * Editing a playthrough changes exactly what was asked, of it alone, and moves the revision; bad
   * fields are refused.
   */
  lemma EditedPlaythrough(db: Db, id: nat, e: RunEdit, token: nat, now: Instant)
    requires Inv(db)
    ensures var r := EditPlaythrough(db, id, e, token, now);
            var bad := || (e.platform.Some? && Text.Bytes(e.platform.value) > 64)
                       || (e.startedOn.Some? && e.startedOn.value.BadDay?)
                       || (e.finishedOn.Some? && e.finishedOn.value.BadDay?)
                       || (e.completion.Some? && e.completion.value.BadCompletion?)
                       || (e.rating.Some? && (e.rating.value < 0 || e.rating.value > 100))
                       || (e.note.Some? && |e.note.value| > 10000);
            && (id !in db.tables.runs ==> r == Err(NotFound))
            && (id in db.tables.runs && bad ==> r.Err? && r.error.Invalid?)
            && (r.Ok? ==> !bad && OnlyRunEdited(db.tables, id, e, r.value.tables))
  {
    hide LogsGood, AllLinked, SaveUndo, TakeSnapshot, EditedRun, OnlyRunEdited, Text.Trim, Text.Bytes, UpdateRun,
         UpdateItem, Sound;
    var t := db.tables;
    if id in t.runs {
      var g := t.runs[id].game;
      RunIsSound(t, id);
      RunTouched(t, id, e);
      var t1 := if e == NO_RUN_EDIT then t else UpdateItem(UpdateRun(t, id, EditedRun(t.runs[id], e)), g, t.items[g]);
      SaveUndoKeepsTables(db, t1, [TakeSnapshot(t, g)], token, now);
    }
  }

  lemma RunTouched(t: Tables, id: nat, e: RunEdit)
    requires id in t.runs && t.runs[id].game in t.items
    ensures e == NO_RUN_EDIT ==> OnlyRunEdited(t, id, e, t)
    ensures var g := t.runs[id].game;
            OnlyRunEdited(t, id, e, UpdateItem(UpdateRun(t, id, EditedRun(t.runs[id], e)), g, t.items[g]))
  {
    hide EditedRun, RunEdited;
    EditIs(t.runs[id], e);
    hide UpdateItem;
    RowTouched(UpdateRun(t, id, EditedRun(t.runs[id], e)), t.runs[id].game);
  }

  /** A row written back as it is: its revision alone moves. */
  lemma RowTouched(t: Tables, g: GameId)
    requires g in t.items
    ensures var t' := UpdateItem(t, g, t.items[g]);
            && t'.runs == t.runs && t'.sessions == t.sessions && t'.items.Keys == t.items.Keys
            && (forall h | h in t.items :: t'.items[h] == t.items[h].(rev := t'.items[h].rev))
            && RevOf(t') == RevOf(t) + 1
  {
  }

  /** Deleting a playthrough takes it and its sessions away, and no current run points at it any more. */
  lemma DeletedPlaythrough(db: Db, id: nat, token: nat, now: Instant)
    requires Inv(db)
    ensures var r := DeletePlaythrough(db, id, token, now);
            && (id !in db.tables.runs ==> r == Err(NotFound))
            && (r.Ok? ==>
                  var t, t' := db.tables, r.value.tables;
                  && id in t.runs && t'.runs.Keys == t.runs.Keys - {id}
                  && (forall k | k in t'.runs :: t'.runs[k] == t.runs[k].(minutes := t'.runs[k].minutes))
                  && (forall k :: k in t'.sessions <==> k in t.sessions && t.sessions[k].run != Some(id))
                  && (forall k | k in t'.sessions :: t'.sessions[k] == t.sessions[k])
                  && t.runs[id].game in t'.items
                  && t'.items[t.runs[id].game].current ==
                     (if t.items[t.runs[id].game].current == Some(id) then None else t.items[t.runs[id].game].current))
  {
    hide Sound, LogsGood, AllLinked, SaveUndo, TakeSnapshot, DeleteRun, ClearCurrent, Moves;
    var t := db.tables;
    if id in t.runs {
      var g := t.runs[id].game;
      RunIsSound(t, id);
      DeleteRunLeaves(t, id);
      AscendingIsList(t, id);
      DeleteRunMoves(t, id);
      MovedKeeps(t, DeleteRun(t, id), g);
      RunSessionsGone(t, id);
      ClearCurrentMoves(DeleteRun(t, id), g, id);
      ClearKeepsSessions(DeleteRun(t, id), g, id);
      SaveUndoKeepsTables(db, ClearCurrent(DeleteRun(t, id), g, id), [TakeSnapshot(t, g)], token, now);
    }
  }

  lemma RunSessionsGone(t: Tables, id: nat)
    requires Sound(t) && id in t.runs
    ensures DeleteRun(t, id).sessions == t.sessions - SessionsOfRun(t, id)
  {
    hide Sound, Lists, DeleteSessions, Ascending, Steps;
    AscendingIsList(t, id);
    CascadeSteps(t, id, Ascending(SessionsOfRun(t, id)));
  }

  lemma ClearKeepsSessions(t: Tables, g: GameId, id: nat)
    ensures ClearCurrent(t, g, id).sessions == t.sessions
  {
  }

  // ---- Timer and pruning --------------------------------------------------

  /** A timer starts for a game in the library, in place of one that ran. */
  lemma StartedTimer(db: Db, g: GameId, now: Instant)
    ensures StartTimer(db, g, now).Ok? <==> g in db.tables.items
    ensures g in db.tables.items ==>
              StartTimer(db, g, now).value.timer == Some(RunningTimer(g, now))
              && StartTimer(db, g, now).value.undo == db.undo
    ensures g !in db.tables.items ==> StartTimer(db, g, now) == Err(NotFound)
  {
  }

  /** Pruning drops the entries older than fifteen minutes and no others. */
  lemma Pruned(db: Db, now: Instant)
    ensures PruneUndo(db, now) == db.(undo := PruneUndo(db, now).undo)
    ensures forall k :: k in PruneUndo(db, now).undo <==> k in db.undo && now - 900 <= db.undo[k].createdAt
    ensures forall k | k in PruneUndo(db, now).undo :: PruneUndo(db, now).undo[k] == db.undo[k]
  {
  }
}
