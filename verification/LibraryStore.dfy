// The library store as it runs: tables updated in place, statement by
// statement, with loops over rows and a rollback when an operation fails.
// Each method is proved equal to the function that specifies it.
module LibraryStore {
  import opened Prelude
  import opened LibraryTypes
  import Sql = LibraryTables
  import Writes = LibraryWrites
  import U = LibraryUndo
  import I = LibraryImport
  import H = LibraryHistory
  import Sync = LibrarySync
  import Text

  type Snapshot = U.Snapshot

  /** The table contents a transaction goes back to. */
  datatype Saved = Saved(
    items: map<GameId, Row>, runs: map<nat, Run>, sessions: map<nat, Session>, tombs: map<GameId, nat>,
    rev: Option<nat>, runSeq: nat, sessSeq: nat)

  /** Taking the runs from the i-th on: one more if it is there. */
  lemma TakeRunsAt(runs: map<nat, Run>, ids: seq<nat>, i: nat, taken: seq<U.RunSnap>)
    requires i <= |ids|
    ensures i == |ids| ==> taken + U.TakeRuns(runs, ids[i..]) == taken
    ensures i < |ids| ==>
              taken + U.TakeRuns(runs, ids[i..]) ==
              (if ids[i] in runs then taken + [U.SnapRun(ids[i], runs[ids[i]])] else taken)
              + U.TakeRuns(runs, ids[i + 1..])
  {
    if i < |ids| {
      assert ids[i..][1..] == ids[i + 1..];
      if ids[i] in runs {
        assert U.TakeRuns(runs, ids[i..]) == [U.SnapRun(ids[i], runs[ids[i]])] + U.TakeRuns(runs, ids[i + 1..]);
      }
    }
  }

  lemma TakeSessionsAt(sessions: map<nat, Session>, ids: seq<nat>, i: nat, taken: seq<U.SessionSnap>)
    requires i <= |ids|
    ensures i == |ids| ==> taken + U.TakeSessions(sessions, ids[i..]) == taken
    ensures i < |ids| ==>
              taken + U.TakeSessions(sessions, ids[i..]) ==
              (if ids[i] in sessions then taken + [U.SnapSession(ids[i], sessions[ids[i]])]
               else taken) + U.TakeSessions(sessions, ids[i + 1..])
  {
    if i < |ids| {
      assert ids[i..][1..] == ids[i + 1..];
      if ids[i] in sessions {
        assert U.TakeSessions(sessions, ids[i..]) ==
               [U.SnapSession(ids[i], sessions[ids[i]])] + U.TakeSessions(sessions, ids[i + 1..]);
      }
    }
  }

  class Store {
    var games: map<GameId, Game>
    var items: map<GameId, Row>
    var runs: map<nat, Run>
    var sessions: map<nat, Session>
    var tombs: map<GameId, nat>
    var rev: Option<nat>
    var runSeq: nat
    var sessSeq: nat
    ghost var runOwner: map<nat, GameId>
    ghost var sessOwner: map<nat, GameId>
    var timer: Option<H.RunningTimer>
    var undo: map<nat, H.UndoEntry>
    var batches: map<nat, H.BatchEntry>

    /** The tables as a value. */
    ghost function View(): Tables
      reads this
    {
      Tables(games, items, runs, sessions, tombs, rev, runSeq, sessSeq, runOwner, sessOwner)
    }

    ghost function Whole(): H.Db
      reads this
    {
      H.Db(View(), timer, undo, batches)
    }

    constructor ()
      ensures View() == Tables(map[], map[], map[], map[], map[], None, 0, 0, map[], map[])
      ensures Whole() == H.Db(View(), None, map[], map[])
    {
      games, items, runs, sessions, tombs := map[], map[], map[], map[], map[];
      rev, runSeq, sessSeq := None, 0, 0;
      runOwner, sessOwner := map[], map[];
      timer, undo, batches := None, map[], map[];
    }

    // ---- Statements and their triggers ------------------------------------

    /** The body of library_rev_ai and library_rev_au. */
    method Stamp(g: GameId)
      requires g in items
      modifies this`rev, this`items
      ensures View() == Sql.Stamp(old(View()), g)
    {
      if rev.None? {
        rev := Some(0);
      }
      rev := Some(rev.value + 1);
      items := items[g := items[g].(rev := rev.value)];
    }

    method InsertItem(g: GameId, row: Row) returns (ok: bool)
      modifies this`rev, this`items, this`tombs
      ensures ok <==> Sql.InsertItem(old(View()), g, row).Ok?
      ensures View() == if ok then Sql.InsertItem(old(View()), g, row).value else old(View())
    {
      if g in items || g !in games {
        return false;
      }
      items := items[g := row.(rev := 0)];
      Stamp(g);
      tombs := tombs - {g};
      ok := true;
    }

    method UpdateItem(g: GameId, row: Row)
      modifies this`rev, this`items
      ensures View() == Sql.UpdateItem(old(View()), g, row)
    {
      if g in items {
        var was := items[g].rev;
        items := items[g := row];
        if row.rev == was {
          Stamp(g);
        }
      }
    }

    method DeleteItem(g: GameId)
      modifies this`rev, this`items, this`tombs, this`runs, this`sessions
      ensures View() == Sql.DeleteItem(old(View()), g)
    {
      if g in items {
        items := items - {g};
        runs := map id | id in runs && runs[id].game != g :: runs[id];
        sessions := map id | id in sessions && sessions[id].game != g :: sessions[id];
        if rev.Some? {
          rev := Some(rev.value + 1);
          tombs := tombs[g := rev.value];
        } else {
          tombs := tombs - {g};
        }
      }
    }

    method PutGame(g: GameId, game: Game)
      modifies this`games, this`rev, this`items
      ensures View() == Sql.PutGame(old(View()), g, game)
    {
      var differs := g in games && Sql.Watched(games[g]) != Sql.Watched(game);
      games := games[g := game];
      if differs && g in items {
        UpdateItem(g, items[g]);
      }
    }

    method InsertRun(id: nat, run: Run) returns (ok: bool)
      modifies this`runs, this`runSeq, this`runOwner
      ensures ok <==> Sql.InsertRun(old(View()), id, run).Ok?
      ensures View() == if ok then Sql.InsertRun(old(View()), id, run).value else old(View())
    {
      if id in runs || run.game !in items {
        return false;
      }
      runs := runs[id := run];
      if runSeq < id {
        runSeq := id;
      }
      runOwner := runOwner[id := run.game];
      ok := true;
    }

    method UpdateRun(id: nat, run: Run)
      modifies this`runs
      ensures View() == Sql.UpdateRun(old(View()), id, run)
    {
      if id in runs {
        runs := runs[id := run];
      }
    }

    method AddItemMinutes(g: GameId, delta: int)
      modifies this`rev, this`items
      ensures View() == Sql.AddItemMinutes(old(View()), g, delta)
    {
      if g in items {
        UpdateItem(g, items[g].(minutes := Max(0, items[g].minutes + delta)));
      }
    }

    method AddRunMinutes(run: Option<nat>, delta: int)
      modifies this`runs
      ensures View() == Sql.AddRunMinutes(old(View()), run, delta)
    {
      if run.Some? && run.value in runs {
        UpdateRun(run.value, runs[run.value].(minutes := Max(0, runs[run.value].minutes + delta)));
      }
    }

    method InsertSession(id: nat, s: Session, now: Instant) returns (ok: bool)
      modifies this`rev, this`items, this`runs, this`sessions, this`sessSeq, this`sessOwner
      ensures ok <==> Sql.InsertSession(old(View()), id, s, now).Ok?
      ensures View() == if ok then Sql.InsertSession(old(View()), id, s, now).value else old(View())
      ensures !ok ==> Sql.InsertSession(old(View()), id, s, now) == Err(Constraint)
    {
      if id in sessions || s.game !in items || (s.run.Some? && s.run.value !in runs) || !Sql.SessionCheck(s) {
        return false;
      }
      sessions := sessions[id := s];
      if sessSeq < id {
        sessSeq := id;
      }
      sessOwner := sessOwner[id := s.game];
      UpdateItem(s.game, items[s.game].(minutes := Max(0, items[s.game].minutes + s.minutes), updatedAt := now));
      AddRunMinutes(s.run, s.minutes);
      ok := true;
    }

    method DeleteSession(id: nat)
      modifies this`rev, this`items, this`runs, this`sessions
      ensures View() == Sql.DeleteSession(old(View()), id)
    {
      if id in sessions {
        var s := sessions[id];
        sessions := sessions - {id};
        AddItemMinutes(s.game, -s.minutes);
        AddRunMinutes(s.run, -s.minutes);
      }
    }

    /** The statement is undone when the run's CHECK refuses its last update. */
    method UpdateSession(id: nat, playedOn: Day, minutes: int, note: string) returns (ok: bool)
      modifies this`rev, this`items, this`runs, this`sessions
      ensures ok <==> Sql.UpdateSession(old(View()), id, playedOn, minutes, note).Ok?
      ensures View() == if ok then Sql.UpdateSession(old(View()), id, playedOn, minutes, note).value else old(View())
      ensures !ok ==> Sql.UpdateSession(old(View()), id, playedOn, minutes, note) == Err(Constraint)
    {
      if id !in sessions {
        return true;
      }
      var was := sessions[id];
      var s := was.(playedOn := playedOn, minutes := minutes, note := note);
      if !Sql.SessionCheck(s) {
        return false;
      }
      var rev0, items0, runs0, sessions0 := rev, items, runs, sessions;
      sessions := sessions[id := s];
      AddItemMinutes(s.game, s.minutes - was.minutes);
      AddRunMinutes(s.run, -was.minutes);
      if s.run.Some? && s.run.value in runs {
        var r := runs[s.run.value];
        if r.minutes + s.minutes < 0 {
          rev, items, runs, sessions := rev0, items0, runs0, sessions0;
          return false;
        }
        UpdateRun(s.run.value, r.(minutes := r.minutes + s.minutes));
      }
      ok := true;
    }

    /** A run goes, and its sessions one by one. */
    method DeleteRun(id: nat)
      modifies this`rev, this`items, this`runs, this`sessions
      ensures View() == Sql.DeleteRun(old(View()), id)
    {
      if id in runs {
        var ids := Ascending(set s | s in sessions && sessions[s].run == Some(id));
        ghost var before := View();
        runs := runs - {id};
        ghost var dropped := View();
        var i := 0;
        while i < |ids|
          invariant 0 <= i <= |ids|
          invariant Sql.DeleteSessions(View(), ids[i..]) == Sql.DeleteSessions(dropped, ids)
        {
          DeleteSession(ids[i]);
          i := i + 1;
        }
        assert Sql.SessionsOfRun(before, id) == set s | s in before.sessions && before.sessions[s].run == Some(id);
      }
    }

    // ---- Undo -------------------------------------------------------------

    method SnapshotItem(g: GameId) returns (snap: Snapshot)
      ensures snap == U.TakeSnapshot(View(), g)
    {
      hide Ascending, U.RunIds, U.SessionIds, U.TakeRuns, U.TakeSessions;
      if g !in items {
        return U.Snapshot(g, None, [], []);
      }
      var runIds := Ascending(U.RunIds(runs, g));
      var taken: seq<U.RunSnap> := [];
      var i := 0;
      assert runIds[0..] == runIds;
      while i < |runIds|
        invariant 0 <= i <= |runIds|
        invariant taken + U.TakeRuns(runs, runIds[i..]) == U.TakeRuns(runs, runIds)
      {
        TakeRunsAt(runs, runIds, i, taken);
        if runIds[i] in runs {
          taken := taken + [U.SnapRun(runIds[i], runs[runIds[i]])];
        }
        i := i + 1;
      }
      TakeRunsAt(runs, runIds, i, taken);
      var ids := Ascending(U.SessionIds(sessions, g));
      var logged: seq<U.SessionSnap> := [];
      i := 0;
      assert ids[0..] == ids;
      while i < |ids|
        invariant 0 <= i <= |ids|
        invariant logged + U.TakeSessions(sessions, ids[i..]) == U.TakeSessions(sessions, ids)
      {
        TakeSessionsAt(sessions, ids, i, logged);
        if ids[i] in sessions {
          logged := logged + [U.SnapSession(ids[i], sessions[ids[i]])];
        }
        i := i + 1;
      }
      TakeSessionsAt(sessions, ids, i, logged);
      snap := U.Snapshot(g, Some(U.SnapRow(items[g])), taken, logged);
    }

    method RestoreItem(snap: Snapshot, now: Instant) returns (err: Option<Error>)
      modifies this`rev, this`items, this`tombs, this`runs, this`sessions, this`runSeq, this`sessSeq, this`runOwner,
               this`sessOwner
      ensures err.None? <==> U.RestoreItem(old(View()), snap, now).Ok?
      ensures err.None? ==> View() == U.RestoreItem(old(View()), snap, now).value
      ensures err.Some? ==> U.RestoreItem(old(View()), snap, now) == Err(err.value)
    {
      var g := snap.game;
      DeleteItem(g);
      if snap.row.None? {
        return None;
      }
      var ok := InsertItem(g, U.BlankRow(snap.row.value));
      if !ok {
        return Some(Constraint);
      }
      ghost var t2 := View();
      var i := 0;
      while i < |snap.runs|
        invariant 0 <= i <= |snap.runs|
        invariant U.RestoreRuns(View(), g, snap.runs[i..]) == U.RestoreRuns(t2, g, snap.runs)
      {
        ok := InsertRun(snap.runs[i].id, U.BackRun(g, snap.runs[i]));
        if !ok {
          return Some(Constraint);
        }
        assert snap.runs[i..][1..] == snap.runs[i + 1..];
        i := i + 1;
      }
      ghost var t3 := View();
      i := 0;
      while i < |snap.sessions|
        invariant 0 <= i <= |snap.sessions|
        invariant U.RestoreSessions(View(), g, snap.sessions[i..], now) == U.RestoreSessions(t3, g, snap.sessions, now)
      {
        ok := InsertSession(snap.sessions[i].id, U.BackSession(g, snap.sessions[i]), now);
        if !ok {
          return Some(Constraint);
        }
        assert snap.sessions[i..][1..] == snap.sessions[i + 1..];
        i := i + 1;
      }
      if g in items {
        UpdateItem(g, items[g].(updatedAt := snap.row.value.updatedAt, current := snap.row.value.current));
      }
      err := None;
    }

    /** Begin: what Rollback goes back to. */
    method Begin() returns (s: Saved)
      ensures s == Saved(items, runs, sessions, tombs, rev, runSeq, sessSeq)
    {
      s := Saved(items, runs, sessions, tombs, rev, runSeq, sessSeq);
    }

    method Rollback(s: Saved, ghost runs0: map<nat, GameId>, ghost sessions0: map<nat, GameId>)
      modifies this`rev, this`items, this`tombs, this`runs, this`sessions, this`runSeq, this`sessSeq, this`runOwner,
               this`sessOwner
      ensures View() == Tables(games, s.items, s.runs, s.sessions, s.tombs, s.rev, s.runSeq, s.sessSeq, runs0,
                               sessions0)
    {
      items, runs, sessions, tombs := s.items, s.runs, s.sessions, s.tombs;
      rev, runSeq, sessSeq := s.rev, s.runSeq, s.sessSeq;
      runOwner, sessOwner := runs0, sessions0;
    }

    /** Restores every snapshot, or nothing. */
    method RestoreAll(snaps: seq<Snapshot>, now: Instant) returns (err: Option<Error>)
      modifies this`rev, this`items, this`tombs, this`runs, this`sessions, this`runSeq, this`sessSeq, this`runOwner,
               this`sessOwner
      ensures err.None? <==> U.RestoreAll(old(View()), snaps, now).Ok?
      ensures err.None? ==> View() == U.RestoreAll(old(View()), snaps, now).value
      ensures err.Some? ==> U.RestoreAll(old(View()), snaps, now) == Err(err.value) && View() == old(View())
    {
      var saved := Begin();
      ghost var ro, so := runOwner, sessOwner;
      ghost var t0 := View();
      var i := 0;
      while i < |snaps|
        invariant 0 <= i <= |snaps|
        invariant U.RestoreAll(View(), snaps[i..], now) == U.RestoreAll(t0, snaps, now)
      {
        err := RestoreItem(snaps[i], now);
        if err.Some? {
          Rollback(saved, ro, so);
          return;
        }
        assert snaps[i..][1..] == snaps[i + 1..];
        i := i + 1;
      }
      err := None;
    }

    method UndoWrite(token: nat, now: Instant) returns (err: Option<Error>)
      modifies this`rev, this`items, this`tombs, this`runs, this`sessions, this`runSeq, this`sessSeq, this`runOwner,
               this`sessOwner, this`undo
      ensures err.None? <==> H.Undo(old(Whole()), token, now).Ok?
      ensures err.None? ==> Whole() == H.Undo(old(Whole()), token, now).value
      ensures err.Some? ==> H.Undo(old(Whole()), token, now) == Err(err.value) && Whole() == old(Whole())
    {
      if token !in undo || undo[token].createdAt < now - UNDO_WINDOW {
        return Some(UndoExpired);
      }
      err := RestoreAll(undo[token].snaps, now);
      if err.None? {
        undo := undo - {token};
      }
    }

    method UndoImport(id: nat, now: Instant) returns (err: Option<Error>)
      modifies this`rev, this`items, this`tombs, this`runs, this`sessions, this`runSeq, this`sessSeq, this`runOwner,
               this`sessOwner, this`batches
      ensures err.None? <==> H.UndoImport(old(Whole()), id, now).Ok?
      ensures err.None? ==> Whole() == H.UndoImport(old(Whole()), id, now).value
      ensures err.Some? ==> H.UndoImport(old(Whole()), id, now) == Err(err.value) && Whole() == old(Whole())
    {
      if id !in batches || batches[id].undone {
        return Some(NotFound);
      }
      err := RestoreAll(batches[id].snaps, now);
      if err.None? {
        batches := batches[id := batches[id].(undone := true)];
      }
    }

    /** saveUndo; on a token already in use the whole write is rolled back. */
    method SaveUndo(snaps: seq<Snapshot>, token: nat, now: Instant) returns (ok: bool)
      modifies this`undo
      ensures forall db: H.Db :: db.undo == old(undo) && db.batches == batches && db.timer == timer ==>
                                   (ok <==> H.SaveUndo(db, View(), snaps, token, now).Ok?)
                                   && (ok ==> Whole() == H.SaveUndo(db, View(), snaps, token, now).value)
      ensures !ok ==> undo == old(undo)
    {
      if snaps == [] {
        return true;
      }
      var kept := map k | k in undo && undo[k].createdAt >= now - UNDO_WINDOW :: undo[k];
      if token in kept {
        return false;
      }
      undo := kept[token := H.UndoEntry(snaps, now)];
      ok := true;
    }

    // ---- Item writes ------------------------------------------------------

    /** The tag loop of validateState. */
    method TidyTags(raw: seq<string>) returns (ok: bool, tags: seq<string>)
      ensures var all := Text.Distinct(raw, {});
              (ok <==> Writes.TagsFit(all)) && (ok ==> tags == all)
    {
      tags := [];
      var seen: set<string> := {};
      var i := 0;
      while i < |raw|
        invariant 0 <= i <= |raw|
        invariant tags == Text.Distinct(raw[..i], {}) && seen == Text.Keys(tags)
        invariant forall k | 0 <= k < |tags| :: |tags[k]| <= MAX_TAG_CHARS
      {
        var t := Text.Trim(raw[i]);
        Text.DistinctStep(raw, i, {});
        Text.KeysAppend(tags, t);
        Text.TrimTwice(raw[i]);
        if t != "" && Text.Lower(t) !in seen {
          if |t| > MAX_TAG_CHARS {
            assert Text.Distinct(raw[..i + 1], {})[|tags|] == t;
            return false, [];
          }
          seen := seen + {Text.Lower(t)};
          tags := tags + [t];
        }
        i := i + 1;
      }
      assert raw[..|raw|] == raw;
      ok := |tags| <= MAX_TAGS;
    }

    /** The platform loop of validateState: too long is refused before a repeat is skipped. */
    method TidyPlatforms(raw: seq<string>) returns (ok: bool, platforms: seq<string>)
      ensures var all := Text.Distinct(raw, {});
              (ok <==> Writes.PlatformsFit(all)) && (ok ==> platforms == all)
    {
      platforms := [];
      var seen: set<string> := {};
      assert platforms == Text.Distinct(raw[..0], {}) && seen == Text.Keys(platforms);
      hide Text.Distinct, Text.Bytes, Text.Trim, Text.Lower, Text.Keys;
      var i := 0;
      while i < |raw|
        invariant 0 <= i <= |raw|
        invariant platforms == Text.Distinct(raw[..i], {}) && seen == Text.Keys(platforms)
        invariant |platforms| <= MAX_PLATFORMS
        invariant forall k | 0 <= k < |platforms| ::
                    Text.Bytes(platforms[k]) <= MAX_PLATFORM_BYTES && Text.Trim(platforms[k]) == platforms[k]
      {
        var t := Text.Trim(raw[i]);
        Text.DistinctStep(raw, i, {});
        Text.KeysAppend(platforms, t);
        Text.TrimTwice(raw[i]);
        if t != "" {
          if Text.Bytes(t) > MAX_PLATFORM_BYTES {
            Text.LongerIsNew(platforms, t, MAX_PLATFORM_BYTES);
            assert Text.Distinct(raw[..i + 1], {})[|platforms|] == t;
            return false, [];
          }
          if Text.Lower(t) !in seen {
            if |platforms| >= MAX_PLATFORMS {
              return false, [];
            }
            seen := seen + {Text.Lower(t)};
            platforms := platforms + [t];
          }
        }
        i := i + 1;
      }
      assert raw[..|raw|] == raw;
      ok := true;
    }

    /** validateState, on what the change asks of the stored row. */
    method ValidateState(prev: Option<Row>, ch: Writes.Change) returns (r: Result<Writes.ItemState, Error>)
      ensures r == Writes.NextState(prev, ch)
    {
      var was := Writes.Stored(prev);
      if ch.status.Some? && (ch.status.value.BadStatus? || (ch.status.value.BlankStatus? && prev.Some?)) {
        return Err(Invalid("invalid_status"));
      }
      var rating := if ch.rating.Some? then ch.rating.value else was.rating;
      if rating < 0 || rating > 100 {
        return Err(Invalid("invalid_rating"));
      }
      var notes := if ch.notes.Some? then ch.notes.value else was.notes;
      if |notes| > MAX_NOTES_CHARS {
        return Err(Invalid("invalid_notes"));
      }
      var ok, tags := TidyTags(if ch.tags.Some? then ch.tags.value else was.tags);
      if !ok {
        return Err(Invalid("invalid_tags"));
      }
      if ch.medium.Some? && ch.medium.value.BadMedium? {
        return Err(Invalid("invalid_medium"));
      }
      var platforms;
      ok, platforms := TidyPlatforms(Writes.WantedPlatforms(prev, ch));
      if !ok {
        return Err(Invalid("invalid_platform"));
      }
      var status := if ch.status.Some? && ch.status.value.Is? then ch.status.value.status else was.status;
      var medium := if ch.medium.Some? then ch.medium.value.medium else was.medium;
      r := Ok(Writes.ItemState(status, rating, tags, notes, platforms, medium));
    }

    method Check(g: GameId, ch: Writes.Change, mode: Writes.Mode) returns (r: Result<Writes.ItemState, Error>)
      ensures r == Writes.Check(View(), g, ch, mode)
    {
      if ch.minutes.Some? && ch.minutesDelta.Some? {
        return Err(Invalid("invalid_playtime"));
      }
      if ch.playedOn.BadDay? {
        return Err(Invalid("invalid_date"));
      }
      var prev := if g in items then Some(items[g]) else None;
      if prev.None? && mode.Patch? {
        return Err(NotFound);
      }
      r := ValidateState(prev, ch);
      if r.Err? {
        return;
      }
      if ch.completion.Some? && ch.completion.value.BadCompletion? {
        return Err(Invalid("invalid_completion"));
      }
      if g !in games {
        return Err(GameNotFound);
      }
      if ch.startedAt.BadTime? || ch.completedAt.BadTime? {
        return Err(Invalid("invalid_timestamp"));
      }
    }

    /** create: a new open run becomes the current one. */
    method OpenRun(g: GameId, platform: string, startedOn: Option<Day>, now: Instant) returns (c: Option<nat>)
      modifies this`rev, this`items, this`runs, this`runSeq, this`runOwner
      ensures (View(), c) == Writes.OpenRun(old(View()), g, platform, startedOn, now)
    {
      var id := runSeq + 1;
      if g !in items || id in runs {
        return None;
      }
      var _ := InsertRun(id, Run(g, platform, startedOn, None, None, 0, None, "", now, None));
      UpdateItem(g, items[g].(current := Some(id)));
      c := Some(id);
    }

    /** updatePlaythroughs. */
    method UpdatePlaythroughs(g: GameId, prev: Option<Row>, st: Writes.ItemState, ch: Writes.Change, now: Instant)
      returns (c: Option<nat>)
      requires g in items
      modifies this`rev, this`items, this`runs, this`runSeq, this`runOwner
      ensures (View(), c) == Writes.UpdateRuns(old(View()), g, prev, st, ch, now)
    {
      hide Writes.OpenRun, Writes.Finished, Writes.EditRun, Writes.FirstStart;
      var row := items[g];
      c := if row.current.Some? && row.current.value in runs then row.current else None;
      var platform := Writes.Primary(st.platforms);
      var day := Writes.Today(ch.playedOn, now);
      if prev.None? || prev.value.status != st.status {
        match st.status {
          case Playing =>
            // An open current run goes on; without one, or after its end, a new one begins.
            if c.None? {
              c := OpenRun(g, platform, Writes.FirstStart(row, prev, ch, now), now);
            } else if runs[c.value].finishedOn.Some? {
              c := OpenRun(g, platform, Some(day), now);
            }
          case Completed | Abandoned =>
            if c.None? {
              c := OpenRun(g, platform, DayOf(row.startedAt), now);
            }
            if c.Some? && c.value in runs {
              UpdateRun(c.value, Writes.Finished(runs[c.value], row, st, ch, now));
            }
          case _ =>
        }
      }
      assert (View(), c) == Writes.MoveRun(old(View()), g, prev, st, ch, now);
      if c.None? && ch.edition.Some? && (st.status.Playing? || st.status.Completed?) {
        c := OpenRun(g, platform, Writes.FirstStart(row, prev, ch, now), now);
      }
      if c.Some? && c.value in runs {
        UpdateRun(c.value, Writes.EditRun(runs[c.value], row, st, ch));
      }
    }

    method LogMinutes(g: GameId, run: Option<nat>, ch: Writes.Change, now: Instant) returns (err: Option<Error>)
      requires g in items
      modifies this`rev, this`items, this`runs, this`sessions, this`sessSeq, this`sessOwner
      ensures err.None? <==> Writes.LogMinutes(old(View()), g, run, ch, now).Ok?
      ensures err.None? ==> View() == Writes.LogMinutes(old(View()), g, run, ch, now).value
      ensures err.Some? ==> Writes.LogMinutes(old(View()), g, run, ch, now) == Err(err.value)
      ensures err.Some? ==> !err.value.NotFound? && !err.value.GameNotFound?
    {
      var delta, source := 0, Adjust;
      if ch.minutesDelta.Some? {
        delta := ch.minutesDelta.value;
        if 0 < delta <= MAX_SESSION_MINUTES {
          source := Manual;
        }
        if delta < 0 && -delta > items[g].minutes {
          delta := -items[g].minutes;
        }
      } else if ch.minutes.Some? {
        if ch.minutes.value < 0 {
          return Some(Invalid("invalid_playtime"));
        }
        delta := ch.minutes.value - items[g].minutes;
      }
      if delta != 0 {
        var note := Text.Trim(ch.sessionNote);
        if |note| > MAX_SESSION_NOTE_CHARS {
          return Some(Invalid("invalid_note"));
        }
        var ok := InsertSession(sessSeq + 1,
                                Session(g, run, Writes.Today(ch.playedOn, now), delta, note, source, now), now);
        if !ok {
          return Some(Constraint);
        }
      }
      err := None;
    }

    /** applyChange: on an error the caller rolls back. */
    method ApplyChange(g: GameId, ch: Writes.Change, mode: Writes.Mode,
                       now: Instant) returns (r: Result<Snapshot, Error>)
      modifies this`rev, this`items, this`tombs, this`runs, this`sessions, this`runSeq, this`sessSeq, this`runOwner,
               this`sessOwner
      ensures r.Ok? <==> Writes.ApplyChange(old(View()), g, ch, mode, now).Ok?
      ensures r.Ok? ==> View() == Writes.ApplyChange(old(View()), g, ch, mode, now).value
      ensures r.Ok? ==> r.value == U.TakeSnapshot(old(View()), g)
      ensures r.Err? ==> Writes.ApplyChange(old(View()), g, ch, mode, now) == Err(r.error)
      ensures r.Err? && (r.error.NotFound? || r.error.GameNotFound?) ==> View() == old(View())
    {
      hide Writes.Check, Writes.UpdateRuns, Writes.LogMinutes, U.TakeSnapshot, Writes.ChangedRow, Writes.NewRow;
      var prev := if g in items then Some(items[g]) else None;
      var st := Check(g, ch, mode);
      if st.Err? {
        return Err(st.error);
      }
      var snap := SnapshotItem(g);
      if g in items {
        UpdateItem(g, Writes.ChangedRow(items[g], st.value, ch, now));
      } else {
        var ok := InsertItem(g, Writes.NewRow(st.value, ch, now));
        if !ok {
          return Err(Constraint);
        }
      }
      assert Ok(View()) == Writes.SaveItem(old(View()), g, st.value, ch, now);
      ghost var t1 := View();
      var run := UpdatePlaythroughs(g, prev, st.value, ch, now);
      if g !in items {
        return Err(Constraint);
      }
      ghost var t2 := View();
      var err := LogMinutes(g, run, ch, now);
      r := if err.Some? then Err(err.value) else Ok(snap);
    }

    /** A write that fails goes back to where it began. */
    method Write(g: GameId, ch: Writes.Change, mode: Writes.Mode, token: nat, now: Instant) returns (err: Option<Error>)
      modifies this`rev, this`items, this`tombs, this`runs, this`sessions, this`runSeq, this`sessSeq, this`runOwner,
               this`sessOwner, this`undo
      ensures err.None? <==> H.Write(old(Whole()), g, ch, mode, token, now).Ok?
      ensures err.None? ==> Whole() == H.Write(old(Whole()), g, ch, mode, token, now).value
      ensures err.Some? ==> H.Write(old(Whole()), g, ch, mode, token, now) == Err(err.value) && Whole() == old(Whole())
    {
      var saved := Begin();
      ghost var ro, so := runOwner, sessOwner;
      ghost var db := Whole();
      var r := ApplyChange(g, ch, mode, now);
      if r.Err? {
        Rollback(saved, ro, so);
        return Some(r.error);
      }
      err := Commit([r.value], token, now, saved, db);
    }

    /** Records the snapshots and keeps the write, or goes back to db. */
    method Commit(snaps: seq<Snapshot>, token: nat, now: Instant, saved: Saved,
                  ghost db: H.Db) returns (err: Option<Error>)
      requires saved == Saved(db.tables.items, db.tables.runs, db.tables.sessions, db.tables.tombs, db.tables.rev,
                              db.tables.runSeq, db.tables.sessSeq)
      requires games == db.tables.games && undo == db.undo && batches == db.batches && timer == db.timer
      modifies this`rev, this`items, this`tombs, this`runs, this`sessions, this`runSeq, this`sessSeq, this`runOwner,
               this`sessOwner, this`undo
      ensures err.None? <==> H.SaveUndo(db, old(View()), snaps, token, now).Ok?
      ensures err.None? ==> Whole() == H.SaveUndo(db, old(View()), snaps, token, now).value
      ensures err.Some? ==> H.SaveUndo(db, old(View()), snaps, token, now) == Err(err.value) && Whole() == db
    {
      var ok := SaveUndo(snaps, token, now);
      if ok {
        err := None;
      } else {
        Rollback(saved, db.tables.runOwner, db.tables.sessOwner);
        err := Some(Constraint);
      }
    }

    // ---- Deleting and bulk edits ------------------------------------------

    /** The loop of deleteMany. */
    method DeleteEach(ids: seq<GameId>, requireAll: bool) returns (r: Result<seq<Snapshot>, Error>)
      modifies this`rev, this`items, this`tombs, this`runs, this`sessions, this`timer
      ensures var d := H.DeleteEach(H.Deleting(old(View()), old(timer), []), ids, requireAll);
              && (r.Ok? <==> d.Ok?) && (r.Ok? ==> d.value == H.Deleting(View(), timer, r.value))
              && (r.Err? ==> d == Err(r.error))
    {
      hide Sql.DeleteItem, U.TakeSnapshot;
      ghost var d0 := H.Deleting(View(), timer, []);
      var snaps: seq<Snapshot> := [];
      var i := 0;
      while i < |ids|
        invariant 0 <= i <= |ids|
        invariant H.DeleteEach(H.Deleting(View(), timer, snaps), ids[i..], requireAll) ==
                  H.DeleteEach(d0, ids, requireAll)
      {
        assert ids[i..][1..] == ids[i + 1..];
        if ids[i] in items {
          var snap := SnapshotItem(ids[i]);
          DeleteItem(ids[i]);
          if timer.Some? && timer.value.game == ids[i] {
            timer := None;
          }
          snaps := snaps + [snap];
        } else if requireAll {
          return Err(NotFound);
        }
        i := i + 1;
      }
      r := Ok(snaps);
    }

    method DeleteMany(ids: seq<GameId>, requireAll: bool, token: nat, now: Instant) returns (err: Option<Error>)
      modifies this`rev, this`items, this`tombs, this`runs, this`sessions, this`runSeq, this`sessSeq, this`runOwner,
               this`sessOwner, this`undo, this`timer
      ensures err.None? <==> H.DeleteMany(old(Whole()), ids, requireAll, token, now).Ok?
      ensures err.None? ==> Whole() == H.DeleteMany(old(Whole()), ids, requireAll, token, now).value
      ensures err.Some? ==>
                H.DeleteMany(old(Whole()), ids, requireAll, token, now) == Err(err.value) && Whole() == old(Whole())
    {
      hide H.DeleteEach, H.SaveUndo;
      var saved := Begin();
      var timer0 := timer;
      ghost var ro, so := runOwner, sessOwner;
      ghost var db := Whole();
      ghost var d := H.DeleteEach(H.Deleting(db.tables, db.timer, []), ids, requireAll);
      assert H.DeleteMany(db, ids, requireAll, token, now) ==
             if d.Err? then Err(d.error)
             else H.SaveUndo(db.(timer := d.value.timer), d.value.tables, d.value.snaps, token, now);
      hide H.DeleteMany;
      var r := DeleteEach(ids, requireAll);
      if r.Err? {
        Rollback(saved, ro, so);
        timer := timer0;
        assert Whole() == db;
        return Some(r.error);
      }
      err := Commit(r.value, token, now, saved, db.(timer := timer));
      if err.Some? {
        timer := timer0;
        assert Whole() == db;
      }
    }

    /** editTags. */
    method EditTags(cur: seq<string>, add: seq<string>, remove: seq<string>) returns (out: seq<string>)
      ensures out == H.EditTags(cur, add, remove)
    {
      var drop: set<string> := {};
      var i := 0;
      while i < |remove|
        invariant 0 <= i <= |remove|
        invariant drop == Text.Keys(remove[..i])
      {
        assert remove[..i + 1] == remove[..i] + [remove[i]];
        Text.KeysAppend(remove[..i], remove[i]);
        drop := drop + {Text.Lower(Text.Trim(remove[i]))};
        i := i + 1;
      }
      assert remove[..|remove|] == remove;
      out := [];
      var seen: set<string> := {};
      var all := cur + add;
      i := 0;
      while i < |all|
        invariant 0 <= i <= |all|
        invariant out == Text.Distinct(all[..i], drop) && seen == Text.Keys(out)
      {
        var t := Text.Trim(all[i]);
        Text.DistinctStep(all, i, drop);
        Text.KeysAppend(out, t);
        Text.TrimTwice(all[i]);
        if t != "" && Text.Lower(t) !in drop && Text.Lower(t) !in seen {
          seen := seen + {Text.Lower(t)};
          out := out + [t];
        }
        i := i + 1;
      }
      assert all[..|all|] == all;
    }

    method DedupeIds(ids: seq<GameId>) returns (out: seq<GameId>)
      ensures out == H.DedupeIds(ids, {})
    {
      out := [];
      var seen: set<GameId> := {};
      var i := 0;
      while i < |ids|
        invariant 0 <= i <= |ids|
        invariant out + H.DedupeIds(ids[i..], seen) == H.DedupeIds(ids, {})
      {
        assert ids[i..][1..] == ids[i + 1..];
        if ids[i] > 0 && ids[i] !in seen {
          seen := seen + {ids[i]};
          out := out + [ids[i]];
        }
        i := i + 1;
      }
    }

    method Bulk(a: H.BulkAction, token: nat, now: Instant) returns (err: Option<Error>)
      modifies this`rev, this`items, this`tombs, this`runs, this`sessions, this`runSeq, this`sessSeq, this`runOwner,
               this`sessOwner, this`undo, this`timer
      ensures err.None? <==> H.Bulk(old(Whole()), a, token, now).Ok?
      ensures err.None? ==> Whole() == H.Bulk(old(Whole()), a, token, now).value
      ensures err.Some? ==> H.Bulk(old(Whole()), a, token, now) == Err(err.value) && Whole() == old(Whole())
    {
      hide H.BulkEach, H.SaveUndo, H.DedupeIds, H.DeleteMany;
      var ids := DedupeIds(a.games);
      if ids == [] || |ids| > MAX_BULK {
        return Some(Invalid("invalid_selection"));
      }
      if a.remove {
        err := DeleteMany(ids, false, token, now);
        return;
      }
      if a.status.None? && a.addTags == [] && a.removeTags == [] {
        return Some(Invalid("invalid_action"));
      }
      var saved := Begin();
      ghost var ro, so := runOwner, sessOwner;
      ghost var db := Whole();
      ghost var d := H.BulkEach(H.Bulking(View(), []), ids, a, now);
      assert H.Bulk(db, a, token, now) == if d.Err? then Err(d.error)
                                          else H.SaveUndo(db, d.value.tables, d.value.snaps, token, now);
      hide H.Bulk;
      var r := BulkEach(ids, a, now);
      if r.Err? {
        Rollback(saved, ro, so);
        return Some(r.error);
      }
      err := Commit(r.value, token, now, saved, db);
    }

    /** Bulk's loop: missing games are passed over, any other error stops it. */
    method BulkEach(ids: seq<GameId>, a: H.BulkAction, now: Instant) returns (r: Result<seq<Snapshot>, Error>)
      modifies this`rev, this`items, this`tombs, this`runs, this`sessions, this`runSeq, this`sessSeq, this`runOwner,
               this`sessOwner
      ensures var d := H.BulkEach(H.Bulking(old(View()), []), ids, a, now);
              && (r.Ok? <==> d.Ok?)
              && (r.Ok? ==> d.value == H.Bulking(View(), r.value))
              && (r.Err? ==> d == Err(r.error))
    {
      hide Writes.ApplyChange, U.TakeSnapshot, Text.Distinct;
      ghost var b0 := H.Bulking(View(), []);
      var snaps: seq<Snapshot> := [];
      var i := 0;
      while i < |ids|
        invariant 0 <= i <= |ids|
        invariant H.BulkEach(H.Bulking(View(), snaps), ids[i..], a, now) == H.BulkEach(b0, ids, a, now)
      {
        assert ids[i..][1..] == ids[i + 1..];
        var ch := Writes.NO_CHANGE.(status := a.status);
        if a.addTags != [] || a.removeTags != [] {
          var tags := EditTags(if ids[i] in items then items[ids[i]].tags else [], a.addTags, a.removeTags);
          ch := ch.(tags := Some(tags));
        }
        var s := ApplyChange(ids[i], ch, Writes.Patch, now);
        if s.Ok? {
          snaps := snaps + [s.value];
        } else if !s.error.NotFound? {
          return Err(s.error);
        }
        i := i + 1;
      }
      assert ids[i..] == [];
      return Ok(snaps);
    }

    // ---- Imports ----------------------------------------------------------

    method AddImportedSessions(e: I.ImportEntry, now: Instant) returns (ok: bool)
      modifies this`rev, this`items, this`runs, this`sessions, this`sessSeq, this`sessOwner
      ensures ok <==> I.AddImportedSessions(old(View()), e, now).Ok?
      ensures ok ==> View() == I.AddImportedSessions(old(View()), e, now).value
      ensures !ok ==> I.AddImportedSessions(old(View()), e, now) == Err(Constraint)
    {
      hide Sql.InsertSession, Sql.UpdateSession, Sql.DeleteSession;
      var g := e.game;
      ghost var t0 := View();
      var sum, i := 0, 0;
      while i < |e.sessions|
        invariant 0 <= i <= |e.sessions|
        invariant I.InsertImported(View(), g, e.sessions[i..], now) == I.InsertImported(t0, g, e.sessions, now)
        invariant sum + I.ImportedMinutes(e.sessions[i..]) == I.ImportedMinutes(e.sessions)
      {
        var s := e.sessions[i];
        assert e.sessions[i..][1..] == e.sessions[i + 1..];
        if I.Counts(s) {
          ok := InsertSession(sessSeq + 1,
                              Session(g, None, s.playedOn.day, s.minutes, Text.Trim(s.note), Import, now), now);
          if !ok {
            return;
          }
          sum := sum + s.minutes;
        }
        i := i + 1;
      }
      var ids := Ascending(set id | id in sessions && sessions[id].game == g && sessions[id].source == Adjust);
      assert I.Adjustments(View(), g) ==
             set id | id in sessions && sessions[id].game == g && sessions[id].source == Adjust;
      ok := true;
      if sum != 0 && ids != [] {
        var adj := ids[|ids| - 1];
        if adj in sessions {
          var was := sessions[adj];
          if was.minutes == sum {
            DeleteSession(adj);
          } else {
            ok := UpdateSession(adj, was.playedOn, was.minutes - sum, was.note);
          }
        }
      }
    }

    /** importChange. */
    method ImportChange(prev: Option<Row>, e: I.ImportEntry) returns (ch: Option<Writes.Change>)
      ensures ch == I.ImportChange(prev, e)
    {
      hide Text.Distinct, I.DateChange, I.ClampRating;
      if prev.None? {
        return Some(I.AddChange(e));
      }
      var r := prev.value;
      var fill := Writes.NO_CHANGE;
      if r.rating == 0 && e.rating > 0 {
        fill := fill.(rating := Some(I.ClampRating(e.rating)));
      }
      if e.minutes > r.minutes {
        fill := fill.(minutes := Some(e.minutes));
      }
      if r.notes == "" && e.notes != "" {
        fill := fill.(notes := Some(e.notes));
      }
      if e.tags != [] {
        var tags := EditTags(r.tags, e.tags, []);
        assert Text.Keys([]) == {};
        if |tags| != |r.tags| {
          fill := fill.(tags := Some(tags));
        }
      }
      if r.owned == [] && e.platform != "" {
        fill := fill.(platforms := Some([e.platform]));
      }
      if r.startedAt.None? {
        fill := fill.(startedAt := I.DateChange(e.startedAt));
      }
      if r.completedAt.None? {
        fill := fill.(completedAt := I.DateChange(e.completedAt));
      }
      assert fill == I.FillChange(r, e);
      ch := if fill == Writes.NO_CHANGE then None else Some(fill);
    }

    /** One entry of the import loop; on an error the batch rolls back. */
    method ImportOne(e: I.ImportEntry, now: Instant) returns (r: Result<(Option<Snapshot>, bool), Error>)
      modifies this`rev, this`items, this`tombs, this`runs, this`sessions, this`runSeq, this`sessSeq, this`runOwner,
               this`sessOwner
      ensures var o := I.ImportOne(old(View()), e, now);
              && (r.Ok? ==> o == Ok(I.Outcome(View(), r.value.0, r.value.1)))
              && (r.Err? ==> o == Err(r.error))
    {
      hide Writes.ApplyChange, I.ImportChange, I.AddImportedSessions, U.TakeSnapshot;
      if e.status.BadStatus? {
        return Err(Invalid("invalid_status"));
      }
      var prev := if e.game in items then Some(items[e.game]) else None;
      var ch := ImportChange(prev, e);
      if ch.None? {
        return Ok((None, false));
      }
      var w := ApplyChange(e.game, ch.value, Writes.Upsert, now);
      if w.Err? {
        return if w.error.GameNotFound? then Ok((None, false)) else Err(w.error);
      }
      if prev.None? {
        var ok := AddImportedSessions(e, now);
        if !ok {
          return Err(Constraint);
        }
      }
      r := Ok((Some(w.value), prev.None?));
    }

    /** Import: every entry, or none. */
    method RunImport(es: seq<I.ImportEntry>, id: nat, now: Instant) returns (err: Option<Error>)
      modifies this`rev, this`items, this`tombs, this`runs, this`sessions, this`runSeq, this`sessSeq, this`runOwner,
               this`sessOwner, this`batches
      ensures err.None? <==> H.RunImport(old(Whole()), es, id, now).Ok?
      ensures err.None? ==> Whole() == H.RunImport(old(Whole()), es, id, now).value
      ensures err.Some? ==> H.RunImport(old(Whole()), es, id, now) == Err(err.value) && Whole() == old(Whole())
    {
      hide I.ImportOne, I.ImportEach, I.Heads;
      var saved := Begin();
      ghost var ro, so := runOwner, sessOwner;
      if es == [] {
        return Some(Invalid("empty_import"));
      }
      if |es| > MAX_IMPORT {
        return Some(Invalid("too_many"));
      }
      var r := ImportEach(es, now);
      if r.Err? {
        Rollback(saved, ro, so);
        return Some(r.error);
      }
      if r.value != [] {
        if id in batches {
          Rollback(saved, ro, so);
          return Some(Constraint);
        }
        batches := batches[id := H.BatchEntry(r.value, false)];
      }
      err := None;
    }

    method ImportEach(es: seq<I.ImportEntry>, now: Instant) returns (r: Result<seq<Snapshot>, Error>)
      modifies this`rev, this`items, this`tombs, this`runs, this`sessions, this`runSeq, this`sessSeq, this`runOwner,
               this`sessOwner
      ensures var b := I.ImportEach(I.Batch(old(View()), [], 0, 0, 0), I.Heads(es, {}), now);
              && (r.Ok? ==> b.Ok? && b.value.tables == View() && b.value.snaps == r.value)
              && (r.Err? ==> b == Err(r.error))
    {
      hide I.ImportOne;
      ghost var b0 := I.Batch(View(), [], 0, 0, 0);
      var snaps: seq<Snapshot> := [];
      var added, updated, same := 0, 0, 0;
      var seen: set<GameId> := {};
      var i := 0;
      while i < |es|
        invariant 0 <= i <= |es| && added >= 0 && updated >= 0 && same >= 0
        invariant I.ImportEach(I.Batch(View(), snaps, added, updated, same), I.Heads(es[i..], seen), now) ==
                  I.ImportEach(b0, I.Heads(es, {}), now)
      {
        assert es[i..][1..] == es[i + 1..];
        if es[i].game != 0 && es[i].game !in seen {
          seen := seen + {es[i].game};
          var o := ImportOne(es[i], now);
          if o.Err? {
            return Err(o.error);
          }
          match o.value.0 {
            case None => same := same + 1;
            case Some(snap) =>
              snaps := snaps + [snap];
              if o.value.1 {
                added := added + 1;
              } else {
                updated := updated + 1;
              }
          }
        }
        i := i + 1;
      }
      r := Ok(snaps);
    }

    // ---- The journal ------------------------------------------------------

    method LogOnCurrent(g: GameId, day: Day, minutes: int, source: Source, token: nat,
                        now: Instant) returns (err: Option<Error>)
      modifies this`rev, this`items, this`tombs, this`runs, this`sessions, this`runSeq, this`sessSeq, this`runOwner,
               this`sessOwner, this`undo
      ensures err.None? <==> H.LogOnCurrent(old(Whole()), g, day, minutes, source, token, now).Ok?
      ensures err.None? ==> Whole() == H.LogOnCurrent(old(Whole()), g, day, minutes, source, token, now).value
      ensures err.Some? ==>
                H.LogOnCurrent(old(Whole()), g, day, minutes, source, token, now) == Err(err.value)
                && Whole() == old(Whole())
    {
      hide Sql.InsertSession, U.TakeSnapshot, H.SaveUndo;
      if g !in items {
        return Some(NotFound);
      }
      var saved := Begin();
      ghost var db := Whole();
      var snap := SnapshotItem(g);
      var ok := InsertSession(sessSeq + 1, Session(g, items[g].current, day, minutes, "", source, now), now);
      if !ok {
        return Some(Constraint);
      }
      err := Commit([snap], token, now, saved, db);
    }

    method LogSynced(g: GameId, minutes: int, playedOn: Writes.DayText, source: Source, token: nat,
                     now: Instant) returns (err: Option<Error>)
      modifies this`rev, this`items, this`tombs, this`runs, this`sessions, this`runSeq, this`sessSeq, this`runOwner,
               this`sessOwner, this`undo
      ensures err.None? <==> H.LogSynced(old(Whole()), g, minutes, playedOn, source, token, now).Ok?
      ensures err.None? ==> Whole() == H.LogSynced(old(Whole()), g, minutes, playedOn, source, token, now).value
      ensures err.Some? ==>
                H.LogSynced(old(Whole()), g, minutes, playedOn, source, token, now) == Err(err.value)
                && Whole() == old(Whole())
    {
      hide H.LogOnCurrent;
      if minutes <= 0 {
        return Some(Invalid("invalid_minutes"));
      }
      if !playedOn.ADay? {
        return Some(Invalid("invalid_date"));
      }
      err := LogOnCurrent(g, playedOn.day, minutes, source, token, now);
    }

    method RemoveSession(id: nat, token: nat, now: Instant) returns (err: Option<Error>)
      modifies this`rev, this`items, this`tombs, this`runs, this`sessions, this`runSeq, this`sessSeq, this`runOwner,
               this`sessOwner, this`undo
      ensures err.None? <==> H.RemoveSession(old(Whole()), id, token, now).Ok?
      ensures err.None? ==> Whole() == H.RemoveSession(old(Whole()), id, token, now).value
      ensures err.Some? ==> H.RemoveSession(old(Whole()), id, token, now) == Err(err.value) && Whole() == old(Whole())
    {
      hide Sql.DeleteSession, U.TakeSnapshot, H.SaveUndo;
      if id !in sessions {
        return Some(NotFound);
      }
      var saved := Begin();
      ghost var db := Whole();
      var snap := SnapshotItem(sessions[id].game);
      DeleteSession(id);
      err := Commit([snap], token, now, saved, db);
    }

    method EditSession(id: nat, e: H.SessionEdit, token: nat, now: Instant) returns (err: Option<Error>)
      modifies this`rev, this`items, this`tombs, this`runs, this`sessions, this`runSeq, this`sessSeq, this`runOwner,
               this`sessOwner, this`undo
      ensures err.None? <==> H.EditSession(old(Whole()), id, e, token, now).Ok?
      ensures err.None? ==> Whole() == H.EditSession(old(Whole()), id, e, token, now).value
      ensures err.Some? ==> H.EditSession(old(Whole()), id, e, token, now) == Err(err.value) && Whole() == old(Whole())
    {
      hide Sql.UpdateSession, U.TakeSnapshot, H.SaveUndo;
      if id !in sessions {
        return Some(NotFound);
      }
      var s := sessions[id];
      var day, minutes, note := s.playedOn, s.minutes, s.note;
      if e.playedOn.Some? {
        if !e.playedOn.value.ADay? {
          return Some(Invalid("invalid_date"));
        }
        day := e.playedOn.value.day;
      }
      if e.minutes.Some? {
        if H.BadMinutes(e, s) {
          return Some(Invalid("invalid_minutes"));
        }
        minutes := e.minutes.value;
      }
      if e.note.Some? {
        if |e.note.value| > MAX_SESSION_NOTE_CHARS {
          return Some(Invalid("invalid_note"));
        }
        note := Text.Trim(e.note.value);
      }
      var saved := Begin();
      ghost var db := Whole();
      var snap := SnapshotItem(s.game);
      var ok := UpdateSession(id, day, minutes, note);
      if !ok {
        return Some(Constraint);
      }
      err := Commit([snap], token, now, saved, db);
    }

    method EditPlaythrough(id: nat, e: H.RunEdit, token: nat, now: Instant) returns (err: Option<Error>)
      modifies this`rev, this`items, this`tombs, this`runs, this`sessions, this`runSeq, this`sessSeq, this`runOwner,
               this`sessOwner, this`undo
      ensures err.None? <==> H.EditPlaythrough(old(Whole()), id, e, token, now).Ok?
      ensures err.None? ==> Whole() == H.EditPlaythrough(old(Whole()), id, e, token, now).value
      ensures err.Some? ==>
                H.EditPlaythrough(old(Whole()), id, e, token, now) == Err(err.value) && Whole() == old(Whole())
    {
      hide Sql.UpdateItem, Sql.UpdateRun, U.TakeSnapshot, H.SaveUndo, H.EditedRun;
      if id !in runs {
        return Some(NotFound);
      }
      if e.platform.Some? && Text.Bytes(e.platform.value) > MAX_PLATFORM_BYTES {
        return Some(Invalid("invalid_platform"));
      }
      if (e.startedOn.Some? && e.startedOn.value == Writes.BadDay)
         || (e.finishedOn.Some? && e.finishedOn.value == Writes.BadDay) {
        return Some(Invalid("invalid_date"));
      }
      if e.completion.Some? && e.completion.value == Writes.BadCompletion {
        return Some(Invalid("invalid_completion"));
      }
      if e.rating.Some? && (e.rating.value < 0 || e.rating.value > 100) {
        return Some(Invalid("invalid_rating"));
      }
      if e.note.Some? && |e.note.value| > MAX_NOTES_CHARS {
        return Some(Invalid("invalid_note"));
      }
      var g := runs[id].game;
      var saved := Begin();
      ghost var db := Whole();
      var snap := SnapshotItem(g);
      if e != H.NO_RUN_EDIT && g in items {
        UpdateRun(id, H.EditedRun(runs[id], e));
        UpdateItem(g, items[g]);
      }
      err := Commit([snap], token, now, saved, db);
    }

    method DeletePlaythrough(id: nat, token: nat, now: Instant) returns (err: Option<Error>)
      modifies this`rev, this`items, this`tombs, this`runs, this`sessions, this`runSeq, this`sessSeq, this`runOwner,
               this`sessOwner, this`undo
      ensures err.None? <==> H.DeletePlaythrough(old(Whole()), id, token, now).Ok?
      ensures err.None? ==> Whole() == H.DeletePlaythrough(old(Whole()), id, token, now).value
      ensures err.Some? ==>
                H.DeletePlaythrough(old(Whole()), id, token, now) == Err(err.value) && Whole() == old(Whole())
    {
      hide Sql.UpdateItem, Sql.DeleteRun, U.TakeSnapshot, H.SaveUndo;
      if id !in runs {
        return Some(NotFound);
      }
      var g := runs[id].game;
      var saved := Begin();
      ghost var db := Whole();
      var snap := SnapshotItem(g);
      DeleteRun(id);
      if g in items && items[g].current == Some(id) {
        UpdateItem(g, items[g].(current := None));
      }
      err := Commit([snap], token, now, saved, db);
    }

    method StartTimer(g: GameId, now: Instant) returns (err: Option<Error>)
      modifies this`rev, this`timer
      ensures err.None? <==> H.StartTimer(old(Whole()), g, now).Ok?
      ensures err.None? ==> Whole() == H.StartTimer(old(Whole()), g, now).value
      ensures err.Some? ==> H.StartTimer(old(Whole()), g, now) == Err(err.value) && Whole() == old(Whole())
    {
      if g !in items {
        return Some(NotFound);
      }
      if rev.None? {
        rev := Some(0);
      }
      timer := Some(H.RunningTimer(g, now));
      err := None;
    }

    method StopTimer(log: bool, minutes: int, playedOn: Writes.DayText, token: nat,
                     now: Instant) returns (err: Option<Error>)
      modifies this`rev, this`items, this`tombs, this`runs, this`sessions, this`runSeq, this`sessSeq, this`runOwner,
               this`sessOwner, this`undo, this`timer
      ensures (Whole(), err) == H.StopTimer(old(Whole()), log, minutes, playedOn, token, now)
    {
      hide H.LogOnCurrent;
      if timer.None? {
        return Some(NoTimer);
      }
      var t := timer.value;
      timer := None;
      if !log {
        return None;
      }
      var m := minutes;
      if m <= 0 {
        m := (now - t.startedAt + 30) / 60;
      }
      if m < 1 {
        m := 1;
      }
      if m > MAX_SESSION_MINUTES {
        m := MAX_SESSION_MINUTES;
      }
      err := LogOnCurrent(t.game, Writes.Today(playedOn, now), m, Timer, token, now);
    }

    method PruneUndo(now: Instant)
      modifies this`undo
      ensures Whole() == H.PruneUndo(old(Whole()), now)
    {
      undo := map k | k in undo && undo[k].createdAt >= now - UNDO_WINDOW :: undo[k];
    }

    // ---- The index --------------------------------------------------------

    /** The games with a tombstone after a revision. */
    method Buried(from: int) returns (deleted: seq<GameId>)
      ensures forall g :: g in deleted <==> g in tombs && tombs[g] > from
    {
      deleted := [];
      var gone := set p | p in tombs.Items && p.1 > from;
      while gone != {}
        invariant forall p | p in gone :: p in tombs.Items && p.1 > from
        invariant forall g :: g in deleted ==> g in tombs && tombs[g] > from
        invariant forall p | p in tombs.Items && p.1 > from :: p in gone || p.0 in deleted
        decreases |gone|
      {
        var p :| p in gone;
        deleted := deleted + [p.0];
        gone := gone - {p};
      }
      assert forall g | g in tombs :: (g, tombs[g]) in tombs.Items;
    }

    /** The rows after a revision, newest first. */
    method ChangedRows(from: int) returns (rows: seq<Sync.Entry>)
      ensures forall i, j | 0 <= i < j < |rows| :: Sync.Before(rows[i], rows[j])
      ensures forall i | 0 <= i < |rows| ::
                var g := rows[i].id;
                g in Sync.Library(View()) && rows[i] == Sync.Library(View())[g] && items[g].rev > from
      ensures forall g | g in Sync.Library(View()) && items[g].rev > from :: Sync.Library(View())[g] in rows
    {
      var lib := map g | g in items && g in games :: Sync.EntryOf(g, games[g], items[g]);
      assert lib == Sync.Library(View());
      hide Sync.Library, Sync.Before;
      var changed := set g | g in lib && items[g].rev > from :: lib[g];
      rows := Sync.NewestFirst(changed);
      forall i | 0 <= i < |rows|
        ensures var g := rows[i].id; g in lib && rows[i] == lib[g] && items[g].rev > from
      {
        assert rows[i] in changed;
      }
      forall g | g in lib && items[g].rev > from ensures lib[g] in rows {
        assert lib[g] in changed;
      }
    }

    /** The whole library, or what changed after a revision. */
    method Index(since: int) returns (idx: Sync.Index)
      ensures Sync.IsIndex(View(), since, idx)
    {
      hide Sync.Library, Sync.Before;
      var now := if rev.Some? then rev.value else 0;
      // A revision the server never gave out: everything is sent.
      var from := if since > now then 0 else since;
      var rows := ChangedRows(from);
      var deleted := [];
      if from > 0 {
        deleted := Buried(from);
      }
      idx := Sync.Index(now, from <= 0, rows, deleted);
    }
  }
}
