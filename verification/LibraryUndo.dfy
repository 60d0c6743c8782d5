// Undo (internal/library/undo.go): a snapshot of one game's row and journal,
// and the statements that put it back.
module LibraryUndo {
  import opened Prelude
  import opened LibraryTypes
  import opened LibraryTables
  import opened LibraryLedger
  import opened LibraryWrites
  import Text

  // ---- Snapshots ----------------------------------------------------------

  datatype RowSnap = RowSnap(
    status: Status, rating: int, tags: seq<string>, notes: string,
    startedAt: Option<Instant>, completedAt: Option<Instant>, createdAt: Instant, updatedAt: Instant,
    platform: string, medium: Medium, owned: seq<string>, current: Option<nat>)

  datatype RunSnap = RunSnap(
    id: nat, platform: string, startedOn: Option<Day>, finishedOn: Option<Day>,
    completion: Option<Completion>, rating: Option<int>, note: string, createdAt: Instant)

  datatype SessionSnap = SessionSnap(
    id: nat, run: Option<nat>, playedOn: Day, minutes: int, note: string, source: Source, createdAt: Instant)

  datatype Snapshot = Snapshot(game: GameId, row: Option<RowSnap>, runs: seq<RunSnap>, sessions: seq<SessionSnap>)

  function SnapRow(r: Row): RowSnap {
    RowSnap(r.status, r.rating, r.tags, r.notes, r.startedAt, r.completedAt, r.createdAt, r.updatedAt,
            r.platform, r.medium, r.owned, r.current)
  }

  function SnapRun(id: nat, r: Run): RunSnap {
    RunSnap(id, r.platform, r.startedOn, r.finishedOn, r.completion, r.rating, r.note, r.createdAt)
  }

  function SnapSession(id: nat, s: Session): SessionSnap {
    SessionSnap(id, s.run, s.playedOn, s.minutes, s.note, s.source, s.createdAt)
  }

  function RunIds(runs: map<nat, Run>, g: GameId): set<nat> {
    set id | id in runs && runs[id].game == g
  }

  function SessionIds(sessions: map<nat, Session>, g: GameId): set<nat> {
    set id | id in sessions && sessions[id].game == g
  }

  function TakeRuns(runs: map<nat, Run>, ids: seq<nat>): seq<RunSnap> {
    if ids == [] then []
    else (if ids[0] in runs then [SnapRun(ids[0], runs[ids[0]])] else []) + TakeRuns(runs, ids[1..])
  }

  function TakeSessions(sessions: map<nat, Session>, ids: seq<nat>): seq<SessionSnap> {
    if ids == [] then []
    else (if ids[0] in sessions then [SnapSession(ids[0], sessions[ids[0]])] else []) + TakeSessions(sessions, ids[1..])
  }

  /** snapshotItem: one game's row and journal. */
  function TakeSnapshot(t: Tables, g: GameId): Snapshot {
    if g !in t.items then Snapshot(g, None, [], [])
    else Snapshot(g, Some(SnapRow(t.items[g])),
                  TakeRuns(t.runs, Ascending(RunIds(t.runs, g))),
                  TakeSessions(t.sessions, Ascending(SessionIds(t.sessions, g))))
  }

  // ---- Restoring ----------------------------------------------------------

  function BlankRow(r: RowSnap): Row {
    Row(r.status, r.rating, 0, r.tags, r.notes, r.startedAt, r.completedAt, r.createdAt, r.updatedAt,
        r.platform, r.medium, r.owned, None, 0)
  }

  function BackRun(g: GameId, p: RunSnap): Run {
    Run(g, p.platform, p.startedOn, p.finishedOn, p.completion, 0, p.rating, p.note, p.createdAt, None)
  }

  function BackSession(g: GameId, s: SessionSnap): Session {
    Session(g, s.run, s.playedOn, s.minutes, s.note, s.source, s.createdAt)
  }

  function RestoreRuns(t: Tables, g: GameId, ps: seq<RunSnap>): Result<Tables, Error>
    decreases ps
  {
    if ps == [] then Ok(t)
    else
      var one := InsertRun(t, ps[0].id, BackRun(g, ps[0]));
      if one.Err? then one else RestoreRuns(one.value, g, ps[1..])
  }

  function RestoreSessions(t: Tables, g: GameId, ss: seq<SessionSnap>, now: Instant): Result<Tables, Error>
    decreases ss
  {
    if ss == [] then Ok(t)
    else
      var one := InsertSession(t, ss[0].id, BackSession(g, ss[0]), now);
      if one.Err? then one else RestoreSessions(one.value, g, ss[1..], now)
  }

  /** The last statement: updated_at and the current run go back where they were. */
  function Settle(t: Tables, g: GameId, r: RowSnap): Tables {
    if g in t.items then UpdateItem(t, g, t.items[g].(updatedAt := r.updatedAt, current := r.current)) else t
  }

  /** restoreItem: delete the item, then re-insert the row at zero minutes, its runs and its sessions. */
  function RestoreItem(t: Tables, snap: Snapshot, now: Instant): Result<Tables, Error> {
    var g := snap.game;
    var t1 := DeleteItem(t, g);
    if snap.row.None? then Ok(t1)
    else
      var t2 := InsertItem(t1, g, BlankRow(snap.row.value));
      if t2.Err? then t2
      else
        var t3 := RestoreRuns(t2.value, g, snap.runs);
        if t3.Err? then t3
        else
          var t4 := RestoreSessions(t3.value, g, snap.sessions, now);
          if t4.Err? then t4 else Ok(Settle(t4.value, g, snap.row.value))
  }

  function RestoreAll(t: Tables, snaps: seq<Snapshot>, now: Instant): Result<Tables, Error>
    decreases snaps
  {
    if snaps == [] then Ok(t)
    else
      var one := RestoreItem(t, snaps[0], now);
      if one.Err? then one else RestoreAll(one.value, snaps[1..], now)
  }

  // ---- Clamped sums -------------------------------------------------------

  function Sum(ms: seq<int>): int {
    if ms == [] then 0 else ms[0] + Sum(ms[1..])
  }

  /** The total that MAX(0, total + m) leaves after each of ms in turn. */
  function Clamp(total: int, ms: seq<int>): int
    decreases ms
  {
    if ms == [] then total else Clamp(Max(0, total + ms[0]), ms[1..])
  }

  /** The largest sum of the last minutes, of however many (none counts as 0). */
  function Peak(ms: seq<int>): int {
    if ms == [] then 0 else Max(Sum(ms), Peak(ms[1..]))
  }

  lemma {:induction false} ClampIsPeak(total: int, ms: seq<int>)
    requires 0 <= total
    ensures Clamp(total, ms) == Max(total + Sum(ms), Peak(ms))
    decreases ms
  {
    if ms == [] {
    } else {
      ClampIsPeak(Max(0, total + ms[0]), ms[1..]);
      PeakCovers(ms[1..]);
    }
  }

  lemma {:induction false} PeakCovers(ms: seq<int>)
    ensures 0 <= Peak(ms) && Sum(ms) <= Peak(ms)
  {
    if ms != [] {
      PeakCovers(ms[1..]);
    }
  }

  lemma {:induction false} SumSplits(ms: seq<int>, k: nat)
    requires k <= |ms|
    ensures Sum(ms) == Sum(ms[..k]) + Sum(ms[k..])
  {
    if k > 0 {
      SumSplits(ms[1..], k - 1);
      assert ms[..k][1..] == ms[1..][..k - 1];
    } else {
      assert ms[k..] == ms;
    }
  }

  lemma {:induction false} PeakBounds(ms: seq<int>, bound: int)
    ensures Peak(ms) <= bound <==> forall k | 0 <= k <= |ms| :: Sum(ms[k..]) <= bound
  {
    if ms == [] {
      assert ms[0..] == ms;
    } else {
      PeakBounds(ms[1..], bound);
      assert ms[0..] == ms;
      forall k | 0 <= k <= |ms| - 1 ensures ms[1..][k..] == ms[k + 1..] {}
      if forall k | 0 <= k <= |ms| :: Sum(ms[k..]) <= bound {
        forall k | 0 <= k <= |ms[1..]| ensures Sum(ms[1..][k..]) <= bound { assert Sum(ms[k + 1..]) <= bound; }
      }
      if Peak(ms) <= bound {
        forall k | 0 <= k <= |ms| ensures Sum(ms[k..]) <= bound {
          if k > 0 { assert Sum(ms[1..][k - 1..]) <= bound; }
        }
      }
    }
  }

  /** Replaying the minutes gives their sum exactly when no first part of them sums below zero. */
  lemma ReplayIsSum(ms: seq<int>)
    ensures Peak(ms) == Sum(ms) <==> forall k | 0 <= k <= |ms| :: 0 <= Sum(ms[..k])
  {
    PeakBounds(ms, Sum(ms));
    PeakCovers(ms);
    forall k | 0 <= k <= |ms| ensures Sum(ms[k..]) <= Sum(ms) <==> 0 <= Sum(ms[..k]) { SumSplits(ms, k); }
  }

  // ---- Minutes of a snapshot ----------------------------------------------

  function Minutes(ss: seq<SessionSnap>): seq<int> {
    if ss == [] then [] else [ss[0].minutes] + Minutes(ss[1..])
  }

  function MinutesOn(ss: seq<SessionSnap>, run: nat): seq<int> {
    if ss == [] then []
    else (if ss[0].run == Some(run) then [ss[0].minutes] else []) + MinutesOn(ss[1..], run)
  }

  // ---- What a snapshot needs to be restorable -----------------------------

  predicate AscendingRuns(ps: seq<RunSnap>) {
    forall i, j | 0 <= i < j < |ps| :: ps[i].id < ps[j].id
  }

  predicate AscendingSessions(ss: seq<SessionSnap>) {
    forall i, j | 0 <= i < j < |ss| :: ss[i].id < ss[j].id
  }

  /** Run IDs first given to this game, each once. */
  predicate RunsOwned(t: Tables, g: GameId, ps: seq<RunSnap>) {
    && AscendingRuns(ps)
    && (forall i | 0 <= i < |ps| :: ps[i].id in t.runOwner && t.runOwner[ps[i].id] == g)
  }

  predicate SessionsOwned(t: Tables, g: GameId, ss: seq<SessionSnap>) {
    && AscendingSessions(ss)
    && (forall i | 0 <= i < |ss| ::
          ss[i].id in t.sessOwner && t.sessOwner[ss[i].id] == g && SessionCheck(BackSession(g, ss[i])))
  }

  predicate HasRun(ps: seq<RunSnap>, run: nat) {
    exists i :: 0 <= i < |ps| && ps[i].id == run
  }

  ghost predicate Restorable(t: Tables, snap: Snapshot) {
    && (snap.row.Some? ==> snap.game in t.games && RowGood(BlankRow(snap.row.value)))
    && RunsOwned(t, snap.game, snap.runs)
    && SessionsOwned(t, snap.game, snap.sessions)
    && (forall i | 0 <= i < |snap.sessions| && snap.sessions[i].run.Some? ::
          HasRun(snap.runs, snap.sessions[i].run.value))
  }

  /** Whatever is written later, a snapshot stays restorable: IDs are never given to another game. */
  lemma RestorableLater(a: Tables, b: Tables, snap: Snapshot)
    requires Restorable(a, snap) && Evolves(a, b)
    ensures Restorable(b, snap)
  {
  }

  lemma {:induction false} TakenRuns(runs: map<nat, Run>, ids: seq<nat>)
    requires StrictlyAscending(ids) && forall i | 0 <= i < |ids| :: ids[i] in runs
    ensures |TakeRuns(runs, ids)| == |ids|
    ensures forall i | 0 <= i < |ids| :: TakeRuns(runs, ids)[i] == SnapRun(ids[i], runs[ids[i]])
    ensures AscendingRuns(TakeRuns(runs, ids))
  {
    if ids != [] {
      TakenRuns(runs, ids[1..]);
    }
  }

  lemma {:induction false} TakenSessions(sessions: map<nat, Session>, ids: seq<nat>)
    requires StrictlyAscending(ids) && forall i | 0 <= i < |ids| :: ids[i] in sessions
    ensures |TakeSessions(sessions, ids)| == |ids|
    ensures forall i | 0 <= i < |ids| :: TakeSessions(sessions, ids)[i] == SnapSession(ids[i], sessions[ids[i]])
    ensures AscendingSessions(TakeSessions(sessions, ids))
  {
    if ids != [] {
      TakenSessions(sessions, ids[1..]);
    }
  }

  /** What is in a snapshot, position by position. */
  lemma SnapshotHolds(t: Tables, g: GameId)
    requires Sound(t) && g in t.items
    ensures var snap := TakeSnapshot(t, g);
            var rs := Ascending(RunIds(t.runs, g));
            var ss := Ascending(SessionIds(t.sessions, g));
            && |snap.runs| == |rs| && AscendingRuns(snap.runs)
            && (forall i | 0 <= i < |rs| ::
                  rs[i] in t.runs && t.runs[rs[i]].game == g && snap.runs[i] == SnapRun(rs[i], t.runs[rs[i]]))
            && |snap.sessions| == |ss| && AscendingSessions(snap.sessions)
            && (forall i | 0 <= i < |ss| ::
                  ss[i] in t.sessions && t.sessions[ss[i]].game == g
                  && snap.sessions[i] == SnapSession(ss[i], t.sessions[ss[i]]))
            && (forall id | id in t.runs && t.runs[id].game == g :: HasRun(snap.runs, id))
            && (forall id | id in t.sessions && t.sessions[id].game == g :: exists i :: 0 <= i < |ss| && ss[i] == id)
  {
    hide Sound, TakeRuns, TakeSessions, Ascending;
    AscendingLists(RunIds(t.runs, g));
    AscendingLists(SessionIds(t.sessions, g));
    var rs := Ascending(RunIds(t.runs, g));
    var ss := Ascending(SessionIds(t.sessions, g));
    forall i | 0 <= i < |rs| ensures rs[i] in RunIds(t.runs, g) { assert rs[i] in rs; }
    forall i | 0 <= i < |ss| ensures ss[i] in SessionIds(t.sessions, g) { assert ss[i] in ss; }
    TakenRuns(t.runs, rs);
    TakenSessions(t.sessions, ss);
    var snap := TakeSnapshot(t, g);
    forall id | id in t.runs && t.runs[id].game == g ensures HasRun(snap.runs, id) {
      assert id in rs;
      var i :| 0 <= i < |rs| && rs[i] == id;
      assert snap.runs[i].id == id;
    }
    forall id | id in t.sessions && t.sessions[id].game == g ensures exists i :: 0 <= i < |ss| && ss[i] == id {
      assert id in ss;
    }
  }

  lemma SnapshotRestorable(t: Tables, g: GameId)
    requires Sound(t)
    ensures Restorable(t, TakeSnapshot(t, g))
  {
    if g in t.items {
      SnapshotRow(t, g);
      ItemIsSound(t, g);
      SnapshotRunsOwned(t, g);
      SnapshotSessionsOwned(t, g);
      hide Sound, TakeSnapshot, RunsOwned, SessionsOwned, HasRun, Text.Tidy;
    }
  }

  lemma SnapshotRunsOwned(t: Tables, g: GameId)
    requires Sound(t) && g in t.items
    ensures RunsOwned(t, g, TakeSnapshot(t, g).runs)
  {
    hide Sound, TakeSnapshot, Ascending, AscendingRuns;
    SnapshotHolds(t, g);
    var rs := Ascending(RunIds(t.runs, g));
    var ps := TakeSnapshot(t, g).runs;
    forall i | 0 <= i < |ps| ensures ps[i].id in t.runOwner && t.runOwner[ps[i].id] == g { RunIsSound(t, rs[i]); }
  }

  lemma SnapshotSessionsOwned(t: Tables, g: GameId)
    requires Sound(t) && g in t.items
    ensures var snap := TakeSnapshot(t, g);
            && SessionsOwned(t, g, snap.sessions)
            && (forall i | 0 <= i < |snap.sessions| && snap.sessions[i].run.Some? ::
                  HasRun(snap.runs, snap.sessions[i].run.value))
  {
    hide Sound, TakeSnapshot, Ascending, AscendingSessions, HasRun;
    SnapshotHolds(t, g);
    var snap := TakeSnapshot(t, g);
    var ss := Ascending(SessionIds(t.sessions, g));
    forall i | 0 <= i < |snap.sessions|
      ensures snap.sessions[i].id in t.sessOwner && t.sessOwner[snap.sessions[i].id] == g
      ensures SessionCheck(BackSession(g, snap.sessions[i]))
      ensures snap.sessions[i].run.Some? ==> HasRun(snap.runs, snap.sessions[i].run.value)
    {
      SessionIsSound(t, ss[i]);
    }
  }

  lemma SnapshotRow(t: Tables, g: GameId)
    requires g in t.items
    ensures TakeSnapshot(t, g).game == g && TakeSnapshot(t, g).row == Some(SnapRow(t.items[g]))
  {
  }

  // ---- Putting it back ----------------------------------------------------

  ghost predicate RunsBack(t: Tables, r: Tables, g: GameId, ps: seq<RunSnap>) {
    && r.items == t.items && r.sessions == t.sessions
    && (forall id | id in t.runs :: id in r.runs && r.runs[id] == t.runs[id])
    && (forall i | 0 <= i < |ps| :: ps[i].id in r.runs && r.runs[ps[i].id] == BackRun(g, ps[i]))
    && (forall id | id in r.runs :: id in t.runs || HasRun(ps, id))
  }

  lemma RunsBackCons(t: Tables, t1: Tables, r: Tables, g: GameId, ps: seq<RunSnap>)
    requires ps != [] && ps[0].id !in t.runs && t1.items == t.items && t1.sessions == t.sessions
    requires t1.runs == t.runs[ps[0].id := BackRun(g, ps[0])]
    requires RunsBack(t1, r, g, ps[1..])
    ensures RunsBack(t, r, g, ps)
  {
    forall i | 0 <= i < |ps| ensures ps[i].id in r.runs && r.runs[ps[i].id] == BackRun(g, ps[i]) {
      if i > 0 { assert ps[i] == ps[1..][i - 1]; } else { assert ps[0].id in t1.runs; }
    }
    forall id | id in r.runs ensures id in t.runs || HasRun(ps, id) {
      if id !in t1.runs {
        var i :| 0 <= i < |ps[1..]| && ps[1..][i].id == id;
        assert ps[i + 1].id == id;
      } else if id !in t.runs {
        assert ps[0].id == id;
      }
    }
    forall id | id in t.runs ensures id in r.runs && r.runs[id] == t.runs[id] { assert id in t1.runs; }
  }

  lemma {:induction false} RestoreRunsBack(t: Tables, g: GameId, ps: seq<RunSnap>)
    requires Sound(t) && g in t.items && RunsOwned(t, g, ps)
    requires forall i | 0 <= i < |ps| :: ps[i].id !in t.runs
    ensures var r := RestoreRuns(t, g, ps); r.Ok? && Moves(t, r.value, g) && RunsBack(t, r.value, g, ps)
    decreases ps
  {
    hide Sound, Moves, RunsBack;
    MovesReflexive(t, g);
    if ps == [] {
      NoRunsBack(t, g);
    } else {
      var one := InsertRun(t, ps[0].id, BackRun(g, ps[0]));
      var t1 := one.value;
      InsertRunMoves(t, ps[0].id, BackRun(g, ps[0]));
      MovedKeeps(t, t1, g);
      assert t1.runs == t.runs[ps[0].id := BackRun(g, ps[0])] && t1.items == t.items && t1.sessions == t.sessions;
      assert t1.runOwner == t.runOwner[ps[0].id := g];
      hide InsertRun;
      forall i | 0 <= i < |ps[1..]|
        ensures ps[1..][i].id in t1.runOwner && t1.runOwner[ps[1..][i].id] == g && ps[1..][i].id !in t1.runs {
        assert ps[1..][i] == ps[i + 1];
      }
      RestoreRunsBack(t1, g, ps[1..]);
      var r := RestoreRuns(t1, g, ps[1..]).value;
      MovesTransitive(t, t1, r, g);
      RunsBackCons(t, t1, r, g, ps);
    }
  }

  lemma NoRunsBack(t: Tables, g: GameId)
    ensures RunsBack(t, t, g, [])
  {
  }

  predicate HasSession(ss: seq<SessionSnap>, id: nat) {
    exists i :: 0 <= i < |ss| && ss[i].id == id
  }

  ghost predicate SessionsBack(t: Tables, r: Tables, g: GameId, ss: seq<SessionSnap>)
    requires g in t.items
  {
    && g in r.items && r.runs.Keys == t.runs.Keys
    && r.items[g] == t.items[g].(minutes := Clamp(t.items[g].minutes, Minutes(ss)),
                                 updatedAt := r.items[g].updatedAt, rev := r.items[g].rev)
    && (forall id | id in t.runs :: r.runs[id] == t.runs[id].(minutes := Clamp(t.runs[id].minutes, MinutesOn(ss, id))))
    && (forall id | id in t.sessions :: id in r.sessions && r.sessions[id] == t.sessions[id])
    && (forall i | 0 <= i < |ss| :: ss[i].id in r.sessions && r.sessions[ss[i].id] == BackSession(g, ss[i]))
    && (forall id | id in r.sessions :: id in t.sessions || HasSession(ss, id))
  }

  lemma ClampCons(total: int, m: int, ms: seq<int>)
    ensures Clamp(total, [m] + ms) == Clamp(Max(0, total + m), ms)
  {
    assert ([m] + ms)[1..] == ms;
  }

  lemma ClampOn(total: int, ss: seq<SessionSnap>, run: nat)
    requires ss != []
    ensures Clamp(total, MinutesOn(ss, run)) ==
            Clamp(if ss[0].run == Some(run) then Max(0, total + ss[0].minutes) else total, MinutesOn(ss[1..], run))
  {
    if ss[0].run == Some(run) {
      ClampCons(total, ss[0].minutes, MinutesOn(ss[1..], run));
    } else {
      assert MinutesOn(ss, run) == MinutesOn(ss[1..], run);
    }
  }

  /** One more session in front: the clamps compose. */
  lemma SessionsBackCons(t: Tables, t1: Tables, r: Tables, g: GameId, ss: seq<SessionSnap>)
    requires ss != [] && g in t.items && g in t1.items && t1.runs.Keys == t.runs.Keys
    requires t1.items[g] == t.items[g].(minutes := Max(0, t.items[g].minutes + ss[0].minutes),
                                        updatedAt := t1.items[g].updatedAt, rev := t1.items[g].rev)
    requires forall id | id in t.runs ::
               t1.runs[id] == t.runs[id].(
                 minutes :=
                   if ss[0].run == Some(id) then Max(0, t.runs[id].minutes + ss[0].minutes) else t.runs[id].minutes)
    requires ss[0].id !in t.sessions && t1.sessions == t.sessions[ss[0].id := BackSession(g, ss[0])]
    requires SessionsBack(t1, r, g, ss[1..])
    ensures SessionsBack(t, r, g, ss)
  {
    hide Clamp;
    ClampCons(t.items[g].minutes, ss[0].minutes, Minutes(ss[1..]));
    forall id | id in t.runs
      ensures r.runs[id] == t.runs[id].(minutes := Clamp(t.runs[id].minutes, MinutesOn(ss, id)))
    {
      ClampOn(t.runs[id].minutes, ss, id);
    }
    hide MinutesOn;
    SessionRowsCons(t.sessions, r.sessions, g, ss);
    hide HasSession;
  }

  /** The session rows alone: one more in front. */
  lemma SessionRowsCons(before: map<nat, Session>, after: map<nat, Session>, g: GameId, ss: seq<SessionSnap>)
    requires ss != [] && ss[0].id !in before
    requires var mid := before[ss[0].id := BackSession(g, ss[0])];
             && (forall id | id in mid :: id in after && after[id] == mid[id])
             && (forall i | 0 <= i < |ss[1..]| ::
                   ss[1..][i].id in after && after[ss[1..][i].id] == BackSession(g, ss[1..][i]))
             && (forall id | id in after :: id in mid || HasSession(ss[1..], id))
    ensures forall id | id in before :: id in after && after[id] == before[id]
    ensures forall i | 0 <= i < |ss| :: ss[i].id in after && after[ss[i].id] == BackSession(g, ss[i])
    ensures forall id | id in after :: id in before || HasSession(ss, id)
  {
    var mid := before[ss[0].id := BackSession(g, ss[0])];
    forall i | 0 <= i < |ss| ensures ss[i].id in after && after[ss[i].id] == BackSession(g, ss[i]) {
      if i > 0 { assert ss[i] == ss[1..][i - 1]; } else { assert ss[0].id in mid; }
    }
    forall id | id in after ensures id in before || HasSession(ss, id) {
      if id !in mid {
        var i :| 0 <= i < |ss[1..]| && ss[1..][i].id == id;
        assert ss[i + 1].id == id;
      } else if id !in before {
        assert ss[0].id == id;
      }
    }
    forall id | id in before ensures id in after && after[id] == before[id] {
      assert id in mid;
    }
  }

  lemma {:induction false} RestoreSessionsBack(t: Tables, g: GameId, ss: seq<SessionSnap>, now: Instant)
    requires Sound(t) && g in t.items && SessionsOwned(t, g, ss)
    requires forall i | 0 <= i < |ss| :: ss[i].id !in t.sessions
    requires forall i | 0 <= i < |ss| && ss[i].run.Some? ::
               ss[i].run.value in t.runs && t.runs[ss[i].run.value].game == g
    ensures var r := RestoreSessions(t, g, ss, now);
            r.Ok? && Moves(t, r.value, g) && SessionsBack(t, r.value, g, ss)
    decreases ss
  {
    hide Sound, Moves, InsertSession, SessionsBack;
    MovesReflexive(t, g);
    if ss == [] {
      NoSessionsBack(t, g);
    } else {
      var s := BackSession(g, ss[0]);
      InsertSessionOk(t, ss[0].id, s, now);
      InsertSessionMoves(t, ss[0].id, s, now);
      InsertSessionMinutes(t, ss[0].id, s, now);
      InsertSessionRow(t, ss[0].id, s, now);
      var t1 := InsertSession(t, ss[0].id, s, now).value;
      MovedKeeps(t, t1, g);
      MovedOwners(t, t1, g);
      forall i | 0 <= i < |ss[1..]|
        ensures ss[1..][i].id in t1.sessOwner && t1.sessOwner[ss[1..][i].id] == g
                && SessionCheck(BackSession(g, ss[1..][i]))
        ensures ss[1..][i].id !in t1.sessions
        ensures ss[1..][i].run.Some? ==> ss[1..][i].run.value in t1.runs && t1.runs[ss[1..][i].run.value].game == g
      {
        assert ss[1..][i] == ss[i + 1];
      }
      RestoreSessionsBack(t1, g, ss[1..], now);
      var r := RestoreSessions(t1, g, ss[1..], now).value;
      MovesTransitive(t, t1, r, g);
      SessionsBackCons(t, t1, r, g, ss);
    }
  }

  lemma NoSessionsBack(t: Tables, g: GameId)
    requires g in t.items
    ensures SessionsBack(t, t, g, [])
  {
  }

  lemma MovedOwners(a: Tables, b: Tables, g: GameId)
    requires Moves(a, b, g)
    ensures forall id | id in a.sessOwner :: id in b.sessOwner && b.sessOwner[id] == a.sessOwner[id]
    ensures forall id | id in a.runOwner :: id in b.runOwner && b.runOwner[id] == a.runOwner[id]
  {
  }

  /** What a restored game looks like: the snapshot, with totals replayed from its sessions. */
  ghost predicate Restored(r: Tables, snap: Snapshot) {
    var g := snap.game;
    if snap.row.None? then g !in r.items
    else
      && g in r.items
      && r.items[g] == BlankRow(snap.row.value).(minutes := Clamp(0, Minutes(snap.sessions)),
                                                 current := snap.row.value.current, rev := r.items[g].rev)
      && (forall i | 0 <= i < |snap.runs| ::
            snap.runs[i].id in r.runs && r.runs[snap.runs[i].id] ==
            BackRun(g, snap.runs[i]).(minutes := Clamp(0, MinutesOn(snap.sessions, snap.runs[i].id))))
      && (forall id | id in r.runs && r.runs[id].game == g :: HasRun(snap.runs, id))
      && (forall i | 0 <= i < |snap.sessions| ::
            snap.sessions[i].id in r.sessions
            && r.sessions[snap.sessions[i].id] == BackSession(g, snap.sessions[i]))
      && (forall id | id in r.sessions && r.sessions[id].game == g :: HasSession(snap.sessions, id))
  }

  /** DeleteItem leaves none of the game's journal, so its IDs are free to come back. */
  lemma JournalGone(t: Tables, snap: Snapshot)
    requires Sound(t) && Restorable(t, snap)
    ensures var d := DeleteItem(t, snap.game);
            && Restorable(d, snap) && snap.game !in d.items
            && (forall id | id in d.runs :: d.runs[id].game != snap.game)
            && (forall id | id in d.sessions :: d.sessions[id].game != snap.game)
            && (forall i | 0 <= i < |snap.runs| :: snap.runs[i].id !in d.runs)
            && (forall i | 0 <= i < |snap.sessions| :: snap.sessions[i].id !in d.sessions)
  {
    hide Sound, Evolves, OnlyItem, RowGood, AscendingRuns, AscendingSessions, DeleteItem;
    var d := DeleteItem(t, snap.game);
    DeleteItemSteps(t, snap.game);
    RestorableLater(t, d, snap);
    ItemGone(t, snap.game);
    forall i | 0 <= i < |snap.runs| ensures snap.runs[i].id !in d.runs {
      if snap.runs[i].id in d.runs { RunIsSound(d, snap.runs[i].id); }
    }
    forall i | 0 <= i < |snap.sessions| ensures snap.sessions[i].id !in d.sessions {
      if snap.sessions[i].id in d.sessions { SessionIsSound(d, snap.sessions[i].id); }
    }
  }

  lemma ItemGone(t: Tables, g: GameId)
    requires Sound(t)
    ensures var d := DeleteItem(t, g);
            && g !in d.items
            && (forall id | id in d.runs :: d.runs[id].game != g)
            && (forall id | id in d.sessions :: d.sessions[id].game != g)
  {
    hide Sound;
    DeleteItemSteps(t, g);
    DeleteItemLeaves(t, g);
    var d := DeleteItem(t, g);
    hide DeleteItem, Evolves, OnlyItem;
    forall id | id in d.runs ensures d.runs[id].game != g { RunIsSound(d, id); }
    forall id | id in d.sessions ensures d.sessions[id].game != g { SessionIsSound(d, id); }
  }

  lemma InsertItemEffect(t: Tables, g: GameId, row: Row)
    requires g !in t.items && g in t.games
    ensures InsertItem(t, g, row).Ok?
    ensures var r := InsertItem(t, g, row).value;
            && g in r.items && r.items[g] == row.(rev := r.items[g].rev) && r.runs == t.runs && r.sessions == t.sessions
            && r.runOwner == t.runOwner && r.sessOwner == t.sessOwner
  {
  }

  lemma SettleMoves(t: Tables, g: GameId, r: RowSnap)
    requires Sound(t) && g in t.items
    ensures var t' := Settle(t, g, r);
            && Moves(t, t', g) && g in t'.items && t'.runs == t.runs && t'.sessions == t.sessions
            && t'.items[g] == t.items[g].(updatedAt := r.updatedAt, current := r.current, rev := t'.items[g].rev)
  {
    hide Sound, Moves, Text.Tidy;
    ItemIsSound(t, g);
    UpdateItemMoves(t, g, t.items[g].(updatedAt := r.updatedAt, current := r.current));
  }

  /**
   * Undo never fails and never collides: a restorable snapshot goes back
   * whatever the tables hold by then, and nothing else moves.
   */
  lemma RestoreItemWorks(t: Tables, snap: Snapshot, now: Instant)
    requires Sound(t) && Restorable(t, snap)
    ensures var r := RestoreItem(t, snap, now); r.Ok? && Moves(t, r.value, snap.game) && Restored(r.value, snap)
  {
    hide Sound, Moves, Evolves, RowGood, RunsBack, SessionsBack, Restored, RunsOwned, SessionsOwned, DeleteItem,
         InsertItem, Settle;
    var g := snap.game;
    var t1 := DeleteItem(t, g);
    DeleteItemMoves(t, g);
    MovedKeeps(t, t1, g);
    JournalGone(t, snap);
    if snap.row.None? {
      GoneIsRestored(t1, snap);
    } else {
      InsertItemMoves(t1, g, BlankRow(snap.row.value));
      InsertItemEffect(t1, g, BlankRow(snap.row.value));
      var t2 := InsertItem(t1, g, BlankRow(snap.row.value)).value;
      MovedKeeps(t1, t2, g);
      MovesTransitive(t, t1, t2, g);
      OwnedStill(t1, t2, snap);
      RestoreRunsBack(t2, g, snap.runs);
      var t3 := RestoreRuns(t2, g, snap.runs).value;
      MovedKeeps(t2, t3, g);
      MovesTransitive(t, t2, t3, g);
      RestorableLaterMoves(t2, t3, snap, g);
      RunsAreBack(t2, t3, snap);
      RestoreSessionsBack(t3, g, snap.sessions, now);
      var t4 := RestoreSessions(t3, g, snap.sessions, now).value;
      MovedKeeps(t3, t4, g);
      MovesTransitive(t, t3, t4, g);
      SessionsBackItem(t3, t4, g, snap.sessions);
      SettleMoves(t4, g, snap.row.value);
      MovesTransitive(t, t4, Settle(t4, g, snap.row.value), g);
      PutTogether(t2, t3, t4, Settle(t4, g, snap.row.value), snap);
    }
  }

  lemma GoneIsRestored(t: Tables, snap: Snapshot)
    requires snap.row.None? && snap.game !in t.items
    ensures Restored(t, snap)
  {
  }

  lemma OwnedStill(a: Tables, b: Tables, snap: Snapshot)
    requires Restorable(a, snap) && b.runOwner == a.runOwner && b.sessOwner == a.sessOwner
    ensures RunsOwned(b, snap.game, snap.runs) && SessionsOwned(b, snap.game, snap.sessions)
  {
  }

  lemma RestorableLaterMoves(a: Tables, b: Tables, snap: Snapshot, g: GameId)
    requires SessionsOwned(a, snap.game, snap.sessions) && Moves(a, b, g)
    ensures SessionsOwned(b, snap.game, snap.sessions)
  {
    MovedOwners(a, b, g);
    hide Moves;
  }

  /** After the runs are back, every session finds its run. */
  lemma RunsAreBack(t2: Tables, t3: Tables, snap: Snapshot)
    requires RunsBack(t2, t3, snap.game, snap.runs)
    requires forall i | 0 <= i < |snap.sessions| && snap.sessions[i].run.Some? ::
               HasRun(snap.runs, snap.sessions[i].run.value)
    ensures forall i | 0 <= i < |snap.sessions| && snap.sessions[i].run.Some? ::
              snap.sessions[i].run.value in t3.runs && t3.runs[snap.sessions[i].run.value].game == snap.game
    ensures t3.items == t2.items && t3.sessions == t2.sessions
  {
  }

  lemma SessionsBackItem(t: Tables, r: Tables, g: GameId, ss: seq<SessionSnap>)
    requires g in t.items && SessionsBack(t, r, g, ss)
    ensures g in r.items
  {
  }

  lemma PutTogether(t2: Tables, t3: Tables, t4: Tables, t5: Tables, snap: Snapshot)
    requires var g := snap.game;
             && snap.row.Some? && g in t2.items && g in t3.items && g in t4.items && g in t5.items
             && t2.items[g] == BlankRow(snap.row.value).(rev := t2.items[g].rev)
             && (forall id | id in t2.runs :: t2.runs[id].game != g)
             && (forall id | id in t2.sessions :: t2.sessions[id].game != g)
             && RunsBack(t2, t3, g, snap.runs) && SessionsBack(t3, t4, g, snap.sessions)
             && t5.runs == t4.runs && t5.sessions == t4.sessions
             && t5.items[g] == t4.items[g].(updatedAt := snap.row.value.updatedAt, current := snap.row.value.current,
                                            rev := t5.items[g].rev)
    ensures Restored(t5, snap)
  {
    hide Clamp, Minutes, MinutesOn;
    var g := snap.game;
    forall id | id in t5.runs && t5.runs[id].game == g ensures HasRun(snap.runs, id) {
      assert id in t3.runs;
    }
  }

  // ---- When undo is exact -------------------------------------------------

  /** Game g is in b as it was in a, but for the row's revision. */
  ghost predicate SameItem(a: Tables, b: Tables, g: GameId) {
    && g in a.items && g in b.items && b.items[g] == a.items[g].(rev := b.items[g].rev)
    && (forall id | id in a.runs && a.runs[id].game == g :: id in b.runs && b.runs[id] == a.runs[id])
    && (forall id | id in b.runs && b.runs[id].game == g :: id in a.runs && b.runs[id] == a.runs[id])
    && SameSessions(a, b, g)
  }

  ghost predicate SameSessions(a: Tables, b: Tables, g: GameId) {
    && (forall id | id in a.sessions && a.sessions[id].game == g ::
          id in b.sessions && b.sessions[id] == a.sessions[id])
    && (forall id | id in b.sessions && b.sessions[id].game == g ::
          id in a.sessions && b.sessions[id] == a.sessions[id])
  }

  /** ... and but for the stored totals and the runs' editions. */
  ghost predicate SameButTotals(a: Tables, b: Tables, g: GameId) {
    && g in a.items && g in b.items
    && b.items[g] == a.items[g].(minutes := b.items[g].minutes, rev := b.items[g].rev)
    && (forall id | id in a.runs && a.runs[id].game == g ::
          id in b.runs && b.runs[id] ==
          a.runs[id].(minutes := b.runs[id].minutes, edition := b.runs[id].edition))
    && (forall id | id in b.runs && b.runs[id].game == g :: id in a.runs && a.runs[id].game == g)
    && SameSessions(a, b, g)
  }

  /** The game's session minutes in ID order, and those of one of its runs. */
  function MinutesInOrder(t: Tables, g: GameId): seq<int> {
    Minutes(TakeSessions(t.sessions, Ascending(SessionIds(t.sessions, g))))
  }

  function RunMinutesInOrder(t: Tables, g: GameId, run: nat): seq<int> {
    MinutesOn(TakeSessions(t.sessions, Ascending(SessionIds(t.sessions, g))), run)
  }

  /** Each stored total is the largest sum of last sessions, and no run names an edition. */
  ghost predicate Replays(t: Tables, g: GameId)
    requires g in t.items
  {
    && t.items[g].minutes == Peak(MinutesInOrder(t, g))
    && forall id | id in t.runs && t.runs[id].game == g ::
         t.runs[id].minutes == Peak(RunMinutesInOrder(t, g, id)) && t.runs[id].edition.None?
  }

  lemma RestoredIsSame(a: Tables, r: Tables, g: GameId)
    requires Sound(a) && g in a.items && Restored(r, TakeSnapshot(a, g))
    ensures SameButTotals(a, r, g)
    ensures r.items[g].minutes == Peak(MinutesInOrder(a, g))
    ensures forall id | id in a.runs && a.runs[id].game == g ::
              id in r.runs && r.runs[id].minutes == Peak(RunMinutesInOrder(a, g, id)) && r.runs[id].edition.None?
  {
    hide Sound, Clamp, Minutes, MinutesOn, TakeRuns, TakeSessions, Ascending, AscendingRuns, AscendingSessions, Peak;
    SnapshotHolds(a, g);
    var snap := TakeSnapshot(a, g);
    var rs := Ascending(RunIds(a.runs, g));
    var ss := Ascending(SessionIds(a.sessions, g));
    ClampFromZero(Minutes(snap.sessions));
    forall id | id in a.runs && a.runs[id].game == g
      ensures id in r.runs && r.runs[id].minutes == Peak(RunMinutesInOrder(a, g, id)) && r.runs[id].edition.None?
      ensures r.runs[id] == a.runs[id].(minutes := r.runs[id].minutes, edition := r.runs[id].edition)
    {
      var i :| 0 <= i < |snap.runs| && snap.runs[i].id == id;
      ClampFromZero(MinutesOn(snap.sessions, id));
    }
    forall id | id in a.sessions && a.sessions[id].game == g
      ensures id in r.sessions && r.sessions[id] == a.sessions[id] {
      var i :| 0 <= i < |ss| && ss[i] == id;
      assert snap.sessions[i].id == id;
    }
  }

  lemma ClampFromZero(ms: seq<int>)
    ensures Clamp(0, ms) == Peak(ms)
  {
    ClampIsPeak(0, ms);
    PeakCovers(ms);
  }

  /**
   * Undo, whatever was written in between: row, runs and sessions come back
   * under their old IDs, nothing else moves and the revision only grows. The
   * totals and editions come back too exactly when the snapshot replays.
   */
  lemma UndoExact(a: Tables, b: Tables, g: GameId, now: Instant)
    requires Sound(a) && g in a.items && Sound(b) && Evolves(a, b)
    ensures var r := RestoreItem(b, TakeSnapshot(a, g), now);
            && r.Ok? && Moves(b, r.value, g) && SameButTotals(a, r.value, g)
            && (SameItem(a, r.value, g) <==> Replays(a, g))
  {
    hide Sound, Moves, Evolves, Restored, Restorable, RestoreItem, MinutesInOrder, RunMinutesInOrder, Peak;
    var snap := TakeSnapshot(a, g);
    SnapshotRow(a, g);
    SnapshotRestorable(a, g);
    RestorableLater(a, b, snap);
    RestoreItemWorks(b, snap, now);
    RestoredIsSame(a, RestoreItem(b, snap, now).value, g);
    hide TakeSnapshot, SameSessions;
  }

  /** A game that was not in the library is taken out again. */
  lemma UndoRemoves(a: Tables, b: Tables, g: GameId, now: Instant)
    requires Sound(a) && g !in a.items && Sound(b) && Evolves(a, b)
    ensures var r := RestoreItem(b, TakeSnapshot(a, g), now);
            r.Ok? && Moves(b, r.value, g) && g !in r.value.items
  {
    hide Sound, Moves, Evolves, Restorable, RestoreItem;
    var snap := TakeSnapshot(a, g);
    SnapshotRestorable(a, g);
    RestorableLater(a, b, snap);
    RestoreItemWorks(b, snap, now);
  }

  // ---- When every total was the sum of its sessions -----------------------

  ghost function Among(ss: map<nat, Session>, ids: set<nat>): map<nat, int> {
    map id | id in ids && id in ss :: ss[id].minutes
  }

  ghost function AmongOn(ss: map<nat, Session>, ids: set<nat>, run: nat): map<nat, int> {
    map id | id in ids && id in ss && ss[id].run == Some(run) :: ss[id].minutes
  }

  lemma TakeInOrder(ss: map<nat, Session>, ids: set<nat>)
    requires ids <= ss.Keys && ids != {}
    ensures var k := Least(ids);
            TakeSessions(ss, Ascending(ids)) == [SnapSession(k, ss[k])] + TakeSessions(ss, Ascending(ids - {k}))
  {
    assert Ascending(ids)[1..] == Ascending(ids - {Least(ids)});
  }

  lemma {:induction false} TotalInOrder(ss: map<nat, Session>, ids: set<nat>)
    requires ids <= ss.Keys
    ensures Sum(Minutes(TakeSessions(ss, Ascending(ids)))) == Total(Among(ss, ids))
    decreases |ids|
  {
    if ids == {} {
      assert Among(ss, ids) == map[];
    } else {
      hide Total, Sum, Ascending, TakeSessions;
      var k := Least(ids);
      TotalInOrder(ss, ids - {k});
      var taken := TakeSessions(ss, Ascending(ids - {k}));
      TakeInOrder(ss, ids);
      assert ([SnapSession(k, ss[k])] + taken)[1..] == taken;
      SumCons(ss[k].minutes, Minutes(taken));
      TotalWithout(Among(ss, ids), k);
      assert Among(ss, ids) - {k} == Among(ss, ids - {k});
    }
  }

  lemma {:induction false} TotalInOrderOn(ss: map<nat, Session>, ids: set<nat>, run: nat)
    requires ids <= ss.Keys
    ensures Sum(MinutesOn(TakeSessions(ss, Ascending(ids)), run)) == Total(AmongOn(ss, ids, run))
    decreases |ids|
  {
    if ids == {} {
      assert AmongOn(ss, ids, run) == map[];
    } else {
      hide Total, Sum, Ascending, TakeSessions, AmongOn;
      var k := Least(ids);
      TotalInOrderOn(ss, ids - {k}, run);
      var taken := TakeSessions(ss, Ascending(ids - {k}));
      TakeInOrder(ss, ids);
      assert ([SnapSession(k, ss[k])] + taken)[1..] == taken;
      assert [] + MinutesOn(taken, run) == MinutesOn(taken, run);
      SumCons(ss[k].minutes, MinutesOn(taken, run));
      AmongOnWithout(ss, ids, k, run);
    }
  }

  lemma AmongOnWithout(ss: map<nat, Session>, ids: set<nat>, k: nat, run: nat)
    requires ids <= ss.Keys && k in ids
    ensures Total(AmongOn(ss, ids, run)) ==
            (if ss[k].run == Some(run) then ss[k].minutes else 0) + Total(AmongOn(ss, ids - {k}, run))
  {
    if ss[k].run == Some(run) {
      TotalWithout(AmongOn(ss, ids, run), k);
      assert AmongOn(ss, ids, run) - {k} == AmongOn(ss, ids - {k}, run);
    } else {
      assert AmongOn(ss, ids, run) == AmongOn(ss, ids - {k}, run);
    }
  }

  lemma SumCons(m: int, ms: seq<int>)
    ensures Sum([m] + ms) == m + Sum(ms)
  {
    assert ([m] + ms)[1..] == ms;
  }

  lemma SumsInOrder(t: Tables, g: GameId, run: nat)
    requires Sound(t)
    ensures Sum(MinutesInOrder(t, g)) == ItemSum(t.sessions, g)
    ensures run in t.runs && t.runs[run].game == g ==> Sum(RunMinutesInOrder(t, g, run)) == RunSum(t.sessions, run)
  {
    hide Sound, TakeSessions, Ascending, Sum, Minutes, MinutesOn, Total;
    var ids := SessionIds(t.sessions, g);
    TotalInOrder(t.sessions, ids);
    assert ItemMinutes(t.sessions, g) == Among(t.sessions, ids);
    if run in t.runs && t.runs[run].game == g {
      forall id | id in t.sessions && t.sessions[id].run == Some(run)
        ensures t.sessions[id].game == g { SessionIsSound(t, id); }
      TotalInOrderOn(t.sessions, ids, run);
      assert RunMinutes(t.sessions, run) == AmongOn(t.sessions, ids, run);
    }
  }

  /** No first part of the minutes sums below zero. */
  ghost predicate NeverNegative(ms: seq<int>) {
    forall k | 0 <= k <= |ms| :: 0 <= Sum(ms[..k])
  }

  /**
   * When the stored totals equalled the session sums, undo is exact if and
   * only if no ID-ordered first part of the sessions, of the item or of one
   * of its runs, sums below zero (and no run names an edition).
   */
  lemma ExactTotalsReplay(t: Tables, g: GameId)
    requires Sound(t) && g in t.items && TotalsAreSums(t, g)
    ensures Replays(t, g) <==>
            && NeverNegative(MinutesInOrder(t, g))
            && forall id | id in t.runs && t.runs[id].game == g ::
                 NeverNegative(RunMinutesInOrder(t, g, id)) && t.runs[id].edition.None?
  {
    hide Sound, MinutesInOrder, RunMinutesInOrder, ItemSum, RunSum, Peak, Sum;
    SumsInOrder(t, g, 0);
    ReplayIsSum(MinutesInOrder(t, g));
    forall id | id in t.runs && t.runs[id].game == g
      ensures t.runs[id].minutes == Peak(RunMinutesInOrder(t, g, id)) <==> NeverNegative(RunMinutesInOrder(t, g, id))
    {
      SumsInOrder(t, g, id);
      ReplayIsSum(RunMinutesInOrder(t, g, id));
    }
  }
}
