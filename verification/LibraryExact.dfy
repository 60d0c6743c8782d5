// When stored totals equal their sessions: which step's MAX(0, ...) breaks the
// equality, and that no history without such a step does.
module LibraryExact {
  import opened Prelude
  import opened LibraryTypes
  import opened LibraryTables
  import opened LibraryLedger
  import opened LibraryWrites
  import opened LibraryUndo
  import opened LibraryImport
  import opened LibraryHistory
  import opened LibraryInvariant
  import Text

  /** The totals of every item and every run are the sums of their sessions. */
  ghost predicate AllExact(t: Tables) {
    forall g | g in t.items :: TotalsAreSums(t, g)
  }

  ghost predicate ExactAt(t: Tables, g: GameId) {
    g in t.items ==> TotalsAreSums(t, g)
  }

  /** A change of game g decides only about game g. */
  lemma MovedExact(a: Tables, b: Tables, g: GameId)
    requires Sound(a) && Moves(a, b, g)
    ensures forall h | h != g :: ExactAt(a, h) <==> ExactAt(b, h)
    ensures AllExact(a) ==> (AllExact(b) <==> ExactAt(b, g))
  {
    hide Sound, Evolves, Covered, TotalsAreSums;
    forall h | h != g ensures ExactAt(a, h) <==> ExactAt(b, h) {
      if h in a.items { OthersTotals(a, b, g, h); }
    }
    forall h | h in b.items && AllExact(a) && ExactAt(b, g) ensures TotalsAreSums(b, h) {
      if h != g { assert ExactAt(a, h); assert ExactAt(b, h); }
    }
    hide OnlyItem;
  }

  /** Rows that differ in other columns only are as exact as before. */
  lemma SameTotals(a: Tables, b: Tables)
    requires a.items.Keys == b.items.Keys && a.runs.Keys == b.runs.Keys && a.sessions == b.sessions
    requires forall g | g in a.items :: a.items[g].minutes == b.items[g].minutes
    requires forall id | id in a.runs :: a.runs[id].minutes == b.runs[id].minutes && a.runs[id].game == b.runs[id].game
    ensures forall g :: ExactAt(a, g) <==> ExactAt(b, g)
    ensures AllExact(a) <==> AllExact(b)
  {
    hide ItemSum, RunSum;
    assert forall g | g in a.items :: TotalsAreSums(a, g) <==> TotalsAreSums(b, g);
    hide TotalsAreSums;
  }

  // ---- One item write -----------------------------------------------------

  /** The current run's row, when the game has one. */
  function CurrentRow(t: Tables, g: GameId): Option<Run> {
    if g in t.items && CurrentRun(t, g).Some? then Some(t.runs[CurrentRun(t, g).value]) else None
  }

  /** A write opens a new run: on entering playing unless one is open, else only when there is none. */
  predicate Starts(cur: Option<Run>, was: Option<Status>, st: Status, ch: Change) {
    var entered := was != Some(st);
    if entered && st.Playing? then cur.None? || cur.value.finishedOn.Some?
    else
      && cur.None?
      && ((entered && (st.Completed? || st.Abandoned?)) || (ch.edition.Some? && (st.Playing? || st.Completed?)))
  }

  function StatusOf(prev: Option<Row>): Option<Status> {
    if prev.Some? then Some(prev.value.status) else None
  }

  /** The total, before the write, of the run it logs its minutes on, if there is one. */
  function RunHolds(t: Tables, g: GameId, st: Status, ch: Change): Option<int> {
    var cur := CurrentRow(t, g);
    if Starts(cur, StatusOf(RowOf(t, g)), st, ch) then Some(0)
    else if cur.Some? then Some(cur.value.minutes) else None
  }

  /** The write takes more minutes away than the run it logs them on holds. */
  predicate WriteClamps(t: Tables, g: GameId, ch: Change, mode: Mode) {
    var st := Check(t, g, ch, mode);
    st.Ok? &&
    var holds := RunHolds(t, g, st.value.status, ch);
    holds.Some? && holds.value + NewTotal(TotalOf(t, g), ch) - TotalOf(t, g) < 0
  }

  lemma OpenRunIs(t: Tables, g: GameId, platform: string, startedOn: Option<Day>, now: Instant)
    requires Sound(t) && g in t.items
    ensures OpenRun(t, g, platform, startedOn, now).1 == Some(t.runSeq + 1)
  {
    FreshRunId(t);
  }

  /** Which run a write ends up on. */
  lemma UpdateRunsChooses(t: Tables, g: GameId, prev: Option<Row>, st: ItemState, ch: Change, now: Instant)
    requires Sound(t) && g in t.items
    ensures UpdateRuns(t, g, prev, st, ch, now).1 ==
            if Starts(CurrentRow(t, g), StatusOf(prev), st.status, ch) then Some(t.runSeq + 1) else CurrentRun(t, g)
  {
    hide Sound, OpenRun, UpdateRun, FirstStart, Today, Finished, EditRun;
    var row, platform := t.items[g], Primary(st.platforms);
    OpenRunIs(t, g, platform, FirstStart(row, prev, ch, now), now);
    OpenRunIs(t, g, platform, Some(Today(ch.playedOn, now)), now);
    OpenRunIs(t, g, platform, DayOf(row.startedAt), now);
  }

  /** Saving the row leaves the current run as it was. */
  lemma SavedCurrent(t: Tables, g: GameId, st: ItemState, ch: Change, now: Instant, t1: Tables)
    requires g in t1.items && t1.items[g] == SavedRow(t, g, st, ch, now).(rev := t1.items[g].rev) && t1.runs == t.runs
    ensures CurrentRow(t1, g) == CurrentRow(t, g)
  {
  }

  /** The minutes on the run a write chose, just before it logs. */
  lemma ChosenHolds(t1: Tables, g: GameId, prev: Option<Row>, st: ItemState, ch: Change, now: Instant, t2: Tables,
                    c: Option<nat>)
    requires Sound(t1) && g in t1.items && RunsMoved(t1, g, t2, c) && UpdateRuns(t1, g, prev, st, ch, now) == (t2, c)
    ensures var cur := CurrentRow(t1, g);
            var starts := Starts(cur, StatusOf(prev), st.status, ch);
            && (c.Some? <==> starts || cur.Some?)
            && (c.Some? ==> c.value in t2.runs && t2.runs[c.value].minutes == if starts then 0 else cur.value.minutes)
  {
    hide UpdateRuns, Moves, KeepsOrder, Starts, StatusOf;
    UpdateRunsChooses(t1, g, prev, st, ch, now);
    FreshRunId(t1);
    hide Sound;
  }

  /** Bringing the runs in step keeps the totals: a new run has no minutes and no sessions. */
  lemma RunsMovedExact(t: Tables, g: GameId, t1: Tables, c: Option<nat>)
    requires Sound(t) && g in t.items && RunsMoved(t, g, t1, c) && TotalsAreSums(t, g)
    ensures g in t1.items && TotalsAreSums(t1, g)
  {
    hide Sound, Moves, KeepsOrder, Linked, ItemSum, RunSum;
    forall id | id in t1.runs && t1.runs[id].game == g ensures RunExact(t1, id) {
      if id !in t.runs { EmptySums(t, g, id); } else { assert RunExact(t, id); }
    }
  }

  /** Logging minutes keeps the totals exactly when the run's does not fall below zero. */
  lemma LoggedExact(t: Tables, g: GameId, t1: Tables, c: Option<nat>, d: int, source: Source)
    requires Sound(t) && g in t.items && MinutesLogged(t, g, t1, c, d, source) && TotalsAreSums(t, g)
    requires c.Some? ==> c.value in t.runs && t.runs[c.value].game == g
    ensures g in t1.items && (TotalsAreSums(t1, g) <==> c.None? || 0 <= t.runs[c.value].minutes + d)
  {
    hide Moves, ItemSum, RunSum;
    if c.Some? { RunIsSound(t, c.value); }
    hide Sound;
    if d != 0 {
      var id := t.sessSeq + 1;
      forall r: nat
        ensures ItemSum(t1.sessions, g) == ItemSum(t.sessions, g) + d
        ensures RunSum(t1.sessions, r) == RunSum(t.sessions, r) + if c == Some(r) then d else 0
      {
        SumsWith(t.sessions, id, t1.sessions[id], g, r);
      }
    }
    forall r | r in t.runs && t.runs[r].game == g
      ensures RunExact(t1, r) <==> c != Some(r) || 0 <= t.runs[r].minutes + d {
      assert RunExact(t, r);
    }
    hide MinutesLogged;
  }

  lemma SavedExact(t: Tables, g: GameId, st: ItemState, ch: Change, now: Instant, t1: Tables)
    requires Sound(t) && ExactAt(t, g)
    requires g in t1.items && t1.items[g] == SavedRow(t, g, st, ch, now).(rev := t1.items[g].rev)
    requires t1.runs == t.runs && t1.sessions == t.sessions
    ensures TotalsAreSums(t1, g)
  {
    hide ItemSum, RunSum;
    if g !in t.items {
      EmptySums(t, g, 0);
      forall id | id in t.runs ensures t.runs[id].game != g { RunIsSound(t, id); }
    } else {
      forall id | id in t.runs && t.runs[id].game == g ensures RunExact(t1, id) { assert RunExact(t, id); }
    }
    hide Sound;
  }

  /** A committed write keeps its game's totals exact exactly when its run's clamp does not fire. */
  lemma WriteExact(t: Tables, g: GameId, ch: Change, mode: Mode, now: Instant)
    requires Sound(t) && RunsLinked(t, g) && ApplyChange(t, g, ch, mode, now).Ok? && ExactAt(t, g)
    ensures var t' := ApplyChange(t, g, ch, mode, now).value;
            g in t'.items && (TotalsAreSums(t', g) <==> !WriteClamps(t, g, ch, mode))
  {
    hide ApplyChange, Sound, Moves, Linked, KeepsOrder, GoodState, TotalsAreSums, UpdateRuns, SavedRow, RunsMoved,
         MinutesLogged, RunHolds, NewTotal;
    var st, t1, t2, c, t3 := WriteStages(t, g, ch, mode, now);
    CheckIsGood(t, g, ch, mode);
    hide Check;
    StagesExist(t, g, ch, now, st, t1, t2, c, t3);
    StagesKeep(t, g, ch, now, st, t1, t2, c, t3);
    MovedKeeps(t, t1, g);
    MovedRun(t1, g, t2, c);
    SavedExact(t, g, st, ch, now, t1);
    RunsMovedExact(t1, g, t2, c);
    LoggedExact(t2, g, t3, c, NewTotal(t2.items[g].minutes, ch) - t2.items[g].minutes, DeltaSource(ch));
    StageHolds(t, g, st, ch, now, t1, t2, c);
    hide Stages;
  }

  /** What the run held that the minutes are logged on, in terms of the tables before the write. */
  lemma StageHolds(
    t: Tables, g: GameId, st: ItemState, ch: Change, now: Instant, t1: Tables, t2: Tables, c: Option<nat>)
    requires Sound(t1) && g in t1.items && t1.items[g] == SavedRow(t, g, st, ch, now).(rev := t1.items[g].rev)
    requires t1.runs == t.runs && RunsMoved(t1, g, t2, c)
    requires UpdateRuns(t1, g, RowOf(t, g), st, ch, now) == (t2, c)
    ensures g in t2.items && t2.items[g].minutes == TotalOf(t, g)
    ensures var holds := RunHolds(t, g, st.status, ch);
            && (c.Some? <==> holds.Some?)
            && (c.Some? ==> c.value in t2.runs && t2.runs[c.value].minutes == holds.value)
  {
    hide Sound, Moves, UpdateRuns, SavedRow, RunsMoved, Starts, CurrentRow;
    SavedCurrent(t, g, st, ch, now, t1);
    ChosenHolds(t1, g, RowOf(t, g), st, ch, now, t2, c);
    RunsMovedMoves(t1, g, t2, c);
    SavedMinutes(t, g, st, ch, now);
  }

  lemma SavedMinutes(t: Tables, g: GameId, st: ItemState, ch: Change, now: Instant)
    ensures SavedRow(t, g, st, ch, now).minutes == TotalOf(t, g)
  {
  }

  // ---- Putting snapshots back ---------------------------------------------

  /** Replaying the snapshot's sessions would clamp: some first part of them is negative. */
  ghost predicate SnapClamps(snap: Snapshot) {
    snap.row.Some? &&
    !(NeverNegative(Minutes(snap.sessions)) &&
      forall i | 0 <= i < |snap.runs| :: NeverNegative(MinutesOn(snap.sessions, snap.runs[i].id)))
  }

  /** The last snapshot of game g would clamp. */
  ghost predicate ClampsFor(snaps: seq<Snapshot>, g: GameId) {
    snaps != [] &&
    if Named(snaps[1..], g) then ClampsFor(snaps[1..], g) else snaps[0].game == g && SnapClamps(snaps[0])
  }

  ghost predicate RestoreClamps(snaps: seq<Snapshot>) {
    exists i :: 0 <= i < |snaps| && ClampsFor(snaps, snaps[i].game)
  }

  predicate DistinctSessions(ss: seq<SessionSnap>) {
    forall i, j | 0 <= i < j < |ss| :: ss[i].id != ss[j].id
  }

  /** The game's sessions in the table are exactly these, and runs have sessions of their own game only. */
  ghost predicate Holds(m: map<nat, Session>, g: GameId, ss: seq<SessionSnap>, run: nat) {
    && DistinctSessions(ss)
    && (forall i | 0 <= i < |ss| :: ss[i].id in m && m[ss[i].id] == BackSession(g, ss[i]))
    && (forall id | id in m && m[id].game == g :: HasSession(ss, id))
    && (forall id | id in m && m[id].run == Some(run) :: m[id].game == g)
  }

  lemma HoldsRest(m: map<nat, Session>, g: GameId, ss: seq<SessionSnap>, run: nat)
    requires ss != [] && Holds(m, g, ss, run)
    ensures Holds(m - {ss[0].id}, g, ss[1..], run)
  {
    var m1, rest := m - {ss[0].id}, ss[1..];
    forall id | id in m1 && m1[id].game == g ensures HasSession(rest, id) {
      var i :| 0 <= i < |ss| && ss[i].id == id;
      assert rest[i - 1].id == id;
    }
    forall i | 0 <= i < |rest| ensures rest[i].id in m1 && m1[rest[i].id] == BackSession(g, rest[i]) {
      assert rest[i] == ss[i + 1];
    }
  }

  lemma {:induction false} HeldSums(m: map<nat, Session>, g: GameId, ss: seq<SessionSnap>, run: nat)
    requires Holds(m, g, ss, run)
    ensures ItemSum(m, g) == Sum(Minutes(ss))
    ensures RunSum(m, run) == Sum(MinutesOn(ss, run))
    decreases ss
  {
    if ss == [] {
      assert ItemMinutes(m, g) == map[];
      assert RunMinutes(m, run) == map[];
    } else {
      hide ItemSum, RunSum;
      HoldsRest(m, g, ss, run);
      HeldSums(m - {ss[0].id}, g, ss[1..], run);
      SumsWithout(m, ss[0].id, g, run);
      SumCons(ss[0].minutes, Minutes(ss[1..]));
      SumCons(ss[0].minutes, MinutesOn(ss[1..], run));
      assert [] + MinutesOn(ss[1..], run) == MinutesOn(ss[1..], run);
      hide Holds, Sum;
    }
  }

  lemma ReplayExact(ms: seq<int>)
    ensures Clamp(0, ms) == Sum(ms) <==> NeverNegative(ms)
  {
    ClampFromZero(ms);
    ReplayIsSum(ms);
    hide Sum, Peak, Clamp;
  }

  lemma RestoredHolds(r: Tables, snap: Snapshot, run: nat)
    requires Sound(r) && Restored(r, snap) && snap.row.Some? && AscendingSessions(snap.sessions)
    requires run in r.runs ==> r.runs[run].game == snap.game
    ensures Holds(r.sessions, snap.game, snap.sessions, run)
  {
    forall id | id in r.sessions && r.sessions[id].run == Some(run)
      ensures r.sessions[id].game == snap.game { SessionIsSound(r, id); }
    hide Sound, HasRun, Clamp, Minutes, MinutesOn;
  }

  /** A snapshot put back has exact totals unless its replay clamps. */
  lemma RestoredExact(r: Tables, snap: Snapshot)
    requires Sound(r) && Restored(r, snap) && AscendingSessions(snap.sessions)
    ensures ExactAt(r, snap.game) <==> !SnapClamps(snap)
  {
    if snap.row.Some? {
      var g, ss := snap.game, snap.sessions;
      hide Sound, ItemSum, RunSum, Clamp, Minutes, MinutesOn, Sum, Holds, NeverNegative, AscendingSessions;
      FreshRunId(r);
      RestoredHolds(r, snap, FreshId(r));
      HeldSums(r.sessions, g, ss, FreshId(r));
      ReplayExact(Minutes(ss));
      forall i | 0 <= i < |snap.runs|
        ensures snap.runs[i].id in r.runs && r.runs[snap.runs[i].id].game == g
        ensures RunExact(r, snap.runs[i].id) <==> NeverNegative(MinutesOn(ss, snap.runs[i].id))
      {
        RestoredHolds(r, snap, snap.runs[i].id);
        HeldSums(r.sessions, g, ss, snap.runs[i].id);
        ReplayExact(MinutesOn(ss, snap.runs[i].id));
      }
      RunsListed(r, snap);
      hide RunExact, Restored;
    }
  }

  /** Every run of the restored game is one of the snapshot's. */
  lemma RunsListed(r: Tables, snap: Snapshot)
    requires Restored(r, snap) && snap.row.Some?
    ensures forall id | id in r.runs && r.runs[id].game == snap.game ::
              exists i :: 0 <= i < |snap.runs| && snap.runs[i].id == id
  {
    hide Clamp, Minutes, MinutesOn, HasSession;
  }

  function FreshId(r: Tables): nat {
    r.runSeq + 1
  }

  lemma NamedCons(snaps: seq<Snapshot>, g: GameId)
    requires snaps != []
    ensures Named(snaps, g) <==> snaps[0].game == g || Named(snaps[1..], g)
  {
    if snaps[0].game != g && !Named(snaps[1..], g) {
      forall k | 0 <= k < |snaps| ensures snaps[k].game != g {
        if k > 0 { assert snaps[k] == snaps[1..][k - 1]; }
      }
    }
    if Named(snaps[1..], g) {
      var i :| 0 <= i < |snaps[1..]| && snaps[1..][i].game == g;
      assert snaps[i + 1].game == g;
    }
  }

  lemma GoodSnap(t: Tables, snaps: seq<Snapshot>)
    requires snaps != [] && SnapsGood(t, snaps)
    ensures Restorable(t, snaps[0]) && SnapLinked(snaps[0]) && AscendingSessions(snaps[0].sessions)
    ensures SnapsGood(t, snaps[1..])
  {
    forall i | 0 <= i < |snaps[1..]|
      ensures Restorable(t, snaps[1..][i]) && SnapLinked(snaps[1..][i]) { assert snaps[1..][i] == snaps[i + 1]; }
    hide RowGood, RunsOwned, AscendingSessions, HasRun, SnapLinked;
  }

  /** Restoring snapshots: a named game is exact unless its last snapshot clamps, another as before. */
  lemma {:induction false} RestoreAllAt(t: Tables, snaps: seq<Snapshot>, now: Instant, h: GameId)
    requires Sound(t) && SnapsGood(t, snaps)
    ensures RestoreAll(t, snaps, now).Ok?
    ensures ExactAt(RestoreAll(t, snaps, now).value, h) <==>
            if Named(snaps, h) then !ClampsFor(snaps, h) else ExactAt(t, h)
    decreases snaps
  {
    hide Sound, Evolves, Moves, Covered, RestoreItem, Restorable, Restored, SnapLinked, SnapInOrder, ExactAt,
         SnapClamps, SnapsGood, AllLinked, AllInOrder, Named, AscendingSessions;
    if snaps != [] {
      var g := snaps[0].game;
      GoodSnap(t, snaps);
      RestoreItemProceeds(t, snaps[0], now);
      var t1 := RestoreItem(t, snaps[0], now).value;
      RestoredExact(t1, snaps[0]);
      MovedExact(t, t1, g);
      SnapsGoodLater(t, t1, snaps[1..]);
      RestoreAllAt(t1, snaps[1..], now, h);
      NamedCons(snaps, h);
    } else {
      assert !Named(snaps, h) by { NoneIn(snaps, h); }
    }
  }

  lemma NoneIn(snaps: seq<Snapshot>, h: GameId)
    requires snaps == []
    ensures !Named(snaps, h)
  {
  }

  lemma {:induction false} ClampsForNamed(snaps: seq<Snapshot>, h: GameId)
    ensures ClampsFor(snaps, h) ==> Named(snaps, h)
  {
    hide Named, SnapClamps;
    if snaps != [] { NamedCons(snaps, h); }
  }

  lemma RestoreAllExact(t: Tables, snaps: seq<Snapshot>, now: Instant)
    requires Sound(t) && SnapsGood(t, snaps) && AllExact(t)
    ensures RestoreAll(t, snaps, now).Ok?
    ensures AllExact(RestoreAll(t, snaps, now).value) <==> !RestoreClamps(snaps)
  {
    hide Sound, RestoreAll, SnapsGood, ClampsFor, TotalsAreSums;
    RestoreAllProceeds(t, snaps, now);
    var r := RestoreAll(t, snaps, now).value;
    forall h ensures ExactAt(r, h) <==> !ClampsFor(snaps, h) {
      RestoreAllAt(t, snaps, now, h);
      ClampsForNamed(snaps, h);
      assert ExactAt(t, h);
    }
    if AllExact(r) {
      forall i | 0 <= i < |snaps| ensures !ClampsFor(snaps, snaps[i].game) { assert ExactAt(r, snaps[i].game); }
    }
    if !RestoreClamps(snaps) {
      forall h | h in r.items ensures TotalsAreSums(r, h) {
        ClampsForNamed(snaps, h);
        assert ExactAt(r, h);
      }
    }
  }

  // ---- Deleting a run -----------------------------------------------------

  /** What deleting these sessions adds to a total, in order. */
  function Refunds(m: map<nat, Session>, ids: seq<nat>): (r: seq<int>)
    ensures |r| == |ids|
  {
    if ids == [] then [] else [if ids[0] in m then -m[ids[0]].minutes else 0] + Refunds(m, ids[1..])
  }

  /** The item's total would fall below zero while the run's sessions go, one by one in this order. */
  ghost predicate CascadeClamps(t: Tables, g: GameId, ids: seq<nat>) {
    exists k :: 0 <= k <= |ids| && TotalOf(t, g) + Sum(Refunds(t.sessions, ids)[..k]) < 0
  }

  lemma {:induction false} RefundsOf(m: map<nat, Session>, m1: map<nat, Session>, ids: seq<nat>)
    requires forall k | k in ids :: k in m && k in m1 && m[k] == m1[k]
    ensures Refunds(m, ids) == Refunds(m1, ids)
  {
    if ids != [] {
      assert ids[0] in ids;
      RefundsOf(m, m1, ids[1..]);
    }
  }

  lemma ClampIsSum(total: int, ms: seq<int>)
    requires 0 <= total
    ensures Clamp(total, ms) == total + Sum(ms) <==> forall k | 0 <= k <= |ms| :: 0 <= total + Sum(ms[..k])
  {
    ClampIsPeak(total, ms);
    PeakBounds(ms, total + Sum(ms));
    forall k | 0 <= k <= |ms|
      ensures Sum(ms[k..]) <= total + Sum(ms) <==> 0 <= total + Sum(ms[..k]) { SumSplits(ms, k); }
    hide Sum, Peak, Clamp;
  }

  /** What deleting sessions of one run leaves of the totals. */
  ghost predicate SessionsGone(t: Tables, d: Tables, g: GameId, id: nat, ids: seq<nat>)
    requires g in t.items
  {
    && g in d.items && d.items[g].minutes == Clamp(t.items[g].minutes, Refunds(t.sessions, ids))
    && ItemSum(d.sessions, g) == ItemSum(t.sessions, g) + Sum(Refunds(t.sessions, ids))
    && d.runs.Keys == t.runs.Keys
    && forall r | r in t.runs && r != id ::
         && d.runs[r].game == t.runs[r].game && d.runs[r].minutes == t.runs[r].minutes
         && RunSum(d.sessions, r) == RunSum(t.sessions, r)
  }

  lemma OneGone(t: Tables, k: nat, g: GameId, id: nat)
    requires g in t.items && k in t.sessions && t.sessions[k].game == g && t.sessions[k].run == Some(id)
    ensures var d := DeleteSession(t, k);
            && d.sessions == t.sessions - {k} && g in d.items && d.runs.Keys == t.runs.Keys
            && d.items[g].minutes == Max(0, t.items[g].minutes - t.sessions[k].minutes)
            && ItemSum(d.sessions, g) == ItemSum(t.sessions, g) - t.sessions[k].minutes
            && forall r | r in t.runs && r != id ::
                 d.runs[r] == t.runs[r] && RunSum(d.sessions, r) == RunSum(t.sessions, r)
  {
    DeleteSessionMinutes(t, k);
    var d := DeleteSession(t, k);
    hide DeleteSession, ItemSum, RunSum;
    SumsWithout(t.sessions, k, g, id);
    forall r | r in t.runs && r != id
      ensures RunSum(d.sessions, r) == RunSum(t.sessions, r) { SumsWithout(t.sessions, k, g, r); }
  }

  lemma {:induction false} AllGone(t: Tables, g: GameId, id: nat, ids: seq<nat>)
    requires g in t.items && forall i, j | 0 <= i < j < |ids| :: ids[i] != ids[j]
    requires forall k | k in ids :: k in t.sessions && t.sessions[k].game == g && t.sessions[k].run == Some(id)
    ensures SessionsGone(t, DeleteSessions(t, ids), g, id, ids)
    decreases ids
  {
    hide DeleteSession, ItemSum, RunSum, Clamp, Sum;
    if ids == [] {
      assert Clamp(t.items[g].minutes, []) == t.items[g].minutes && Sum([]) == 0 by { EmptyClamp(t.items[g].minutes); }
    } else {
      assert ids[0] in ids;
      OneGone(t, ids[0], g, id);
      var d := DeleteSession(t, ids[0]);
      forall k | k in ids[1..] ensures k in d.sessions && d.sessions[k] == t.sessions[k] { assert k in ids; }
      AllGone(d, g, id, ids[1..]);
      RefundsOf(t.sessions, d.sessions, ids[1..]);
      SumCons(-t.sessions[ids[0]].minutes, Refunds(d.sessions, ids[1..]));
      ClampCons(t.items[g].minutes, -t.sessions[ids[0]].minutes, Refunds(d.sessions, ids[1..]));
    }
  }

  lemma EmptyClamp(total: int)
    ensures Clamp(total, []) == total && Sum([]) == 0
  {
  }

  /**
   * Deleting a run keeps the totals exact unless the item's falls below zero on the way, in
   * whatever order its sessions go.
   */
  lemma CascadeExact(t: Tables, id: nat, ids: seq<nat>)
    requires Sound(t) && id in t.runs && Lists(t, id, ids)
    requires var g := t.runs[id].game; g in t.items && TotalsAreSums(t, g)
    ensures var g := t.runs[id].game;
            var d := DeleteSessions(WithoutRun(t, id), ids);
            g in d.items && (TotalsAreSums(d, g) <==> !CascadeClamps(t, g, ids))
  {
    hide Sound, ItemSum, RunSum, Clamp, Sum, DeleteSessions, Refunds;
    var g := t.runs[id].game;
    ItemIsSound(t, g);
    ListedSessions(t, id, ids);
    AllGone(t, g, id, ids);
    CascadeCommutes(t, id, ids);
    ClampIsSum(t.items[g].minutes, Refunds(t.sessions, ids));
    var d := DeleteSessions(WithoutRun(t, id), ids);
    forall r | r in d.runs && d.runs[r].game == g ensures RunExact(d, r) { assert RunExact(t, r); }
    hide Lists;
  }

  // ---- Writes that never clamp --------------------------------------------

  /** A write that takes no minutes away. */
  lemma RaisingWrite(t: Tables, g: GameId, ch: Change, mode: Mode)
    requires Sound(t) && TotalOf(t, g) <= NewTotal(TotalOf(t, g), ch)
    ensures !WriteClamps(t, g, ch, mode)
  {
    hide Check, Starts;
    if g in t.items && CurrentRun(t, g).Some? { RunIsSound(t, CurrentRun(t, g).value); }
    hide Sound;
  }

  lemma RaisingExact(t: Tables, g: GameId, ch: Change, mode: Mode, now: Instant)
    requires Sound(t) && RunsLinked(t, g) && ApplyChange(t, g, ch, mode, now).Ok? && ExactAt(t, g)
    requires TotalOf(t, g) <= NewTotal(TotalOf(t, g), ch)
    ensures ExactAt(ApplyChange(t, g, ch, mode, now).value, g)
  {
    hide Sound, ApplyChange, TotalsAreSums, WriteClamps, NewTotal, RunsLinked;
    WriteExact(t, g, ch, mode, now);
    RaisingWrite(t, g, ch, mode);
  }

  /** Logging positive minutes. */
  lemma PositiveSession(t: Tables, s: Session)
    requires Sound(t) && 0 < s.minutes
    ensures !InsertClamps(t, s)
  {
    if s.game in t.items { ItemIsSound(t, s.game); }
    if OnRun(t, s.run) { RunIsSound(t, s.run.value); }
    hide Sound;
  }

  lemma {:induction false} InsertImportedExact(t: Tables, g: GameId, ss: seq<ImportedSession>, now: Instant)
    requires Sound(t) && g in t.items && TotalsAreSums(t, g)
    ensures InsertImported(t, g, ss, now).Ok? && ExactAt(InsertImported(t, g, ss, now).value, g)
    decreases ss
  {
    hide Sound, Moves, InsertSession, TotalsAreSums, InsertClamps;
    if ss == [] {
    } else if !Counts(ss[0]) {
      InsertImportedExact(t, g, ss[1..], now);
    } else {
      var s := Session(g, None, ss[0].playedOn.day, ss[0].minutes, Text.Trim(ss[0].note), Import, now);
      SessionWithoutRun(t, s, now);
      PositiveSession(t, s);
      InsertTotals(t, t.sessSeq + 1, s, now);
      var t1 := InsertSession(t, t.sessSeq + 1, s, now).value;
      MovedKeeps(t, t1, g);
      InsertImportedExact(t1, g, ss[1..], now);
    }
  }

  /** The adjustment of a game just imported is on a run with the same total, so shrinking it clamps nothing. */
  lemma ShrinkExact(t: Tables, g: GameId, id: nat, total: int, sum: int)
    requires Sound(t) && g in t.items && id in t.sessions && Adjustments(t, g) == {id}
    requires t.sessions[id].minutes == total && 0 < total && 0 <= sum && t.items[g].minutes == total + sum
    requires t.sessions[id].run.Some? ==>
               t.sessions[id].run.value in t.runs && t.runs[t.sessions[id].run.value].minutes == total
    requires TotalsAreSums(t, g) && ShrinkAdjustment(t, g, sum).Ok?
    ensures ExactAt(ShrinkAdjustment(t, g, sum).value, g)
  {
    hide Sound, Ascending, DeleteSession, UpdateSession, TotalsAreSums;
    NewestAdjustment(t, g, id);
    assert id in Adjustments(t, g);
    SessionIsSound(t, id);
    var adj := t.sessions[id];
    if sum == 0 {
    } else if adj.minutes == sum {
      DeleteTotals(t, id);
    } else {
      UpdateTotals(t, id, adj.playedOn, adj.minutes - sum, adj.note);
    }
  }

  lemma AddImportedExact(t: Tables, e: ImportEntry, total: int, now: Instant)
    requires Sound(t) && JustAdded(t, e.game, total) && 0 <= total && ExactAt(t, e.game)
    requires AddImportedSessions(t, e, now).Ok?
    ensures ExactAt(AddImportedSessions(t, e, now).value, e.game)
  {
    hide Sound, Moves, InsertImported, ShrinkAdjustment, Adjustments, Linked, TotalsAreSums;
    var g := e.game;
    InsertImportedAdds(t, g, e.sessions, now);
    InsertImportedExact(t, g, e.sessions, now);
    var t1 := InsertImported(t, g, e.sessions, now).value;
    AddedMeansOnlyMinutes(t, t1, g, ImportedMinutes(e.sessions));
    MovedKeeps(t, t1, g);
    if total > 0 {
      var id :| id in t.sessions && IsAdjustment(t, g, id, total);
      ShrinkExact(t1, g, id, total, ImportedMinutes(e.sessions));
    } else {
      ShrinkNothing(t1, g, ImportedMinutes(e.sessions));
    }
  }

  lemma FillRaises(r: Row, e: ImportEntry)
    ensures r.minutes <= NewTotal(r.minutes, FillChange(r, e))
  {
    hide AddTags;
  }

  lemma ImportOneExact(t: Tables, e: ImportEntry, now: Instant)
    requires Sound(t) && RunsLinked(t, e.game) && ImportOne(t, e, now).Ok? && ExactAt(t, e.game)
    ensures ExactAt(ImportOne(t, e, now).value.tables, e.game)
  {
    hide Sound, Moves, RunsLinked, FillChange, AddChange, TakeSnapshot, AddImportedSessions, ApplyChange,
         TotalsAreSums, NewTotal, JustAdded;
    var g := e.game;
    var ch := ImportChange(RowOf(t, g), e);
    if ch.Some? && ApplyChange(t, g, ch.value, Upsert, now).Ok? {
      var t1 := ApplyChange(t, g, ch.value, Upsert, now).value;
      if g in t.items {
        FillRaises(t.items[g], e);
        RaisingExact(t, g, ch.value, Upsert, now);
      } else {
        AddTotal(e);
        RaisingExact(t, g, ch.value, Upsert, now);
        AddedHasAdjustment(t, g, ch.value, now);
        ApplyChangeMoves(t, g, ch.value, Upsert, now);
        MovedKeeps(t, t1, g);
        AddImportedExact(t1, e, Max(0, e.minutes), now);
      }
    }
  }

  lemma {:induction false} ImportEachExact(b: Batch, hs: seq<ImportEntry>, now: Instant)
    requires Ready(b.tables) && ImportEach(b, hs, now).Ok? && AllExact(b.tables)
    ensures AllExact(ImportEach(b, hs, now).value.tables)
    decreases hs
  {
    hide ImportOne, Sound, Moves, Evolves, Covered, AllInOrder, RunsLinked, Counted, TotalsAreSums, Advances;
    if hs != [] {
      var b1 := FirstHead(b, hs, now);
      LinkedAt(b.tables, hs[0].game);
      ImportOneExact(b.tables, hs[0], now);
      MovedExact(b.tables, b1.tables, hs[0].game);
      ImportEachExact(b1, hs[1..], now);
    }
  }

  lemma {:induction false} DeleteEachExact(d: Deleting, ids: seq<GameId>, requireAll: bool)
    requires Sound(d.tables) && AllExact(d.tables) && DeleteEach(d, ids, requireAll).Ok?
    ensures AllExact(DeleteEach(d, ids, requireAll).value.tables)
    decreases ids
  {
    hide Sound, Moves, DeleteItem, TakeSnapshot, TotalsAreSums, AllExact;
    if ids != [] && ids[0] !in d.tables.items {
      DeleteEachExact(d, ids[1..], requireAll);
    } else if ids != [] {
      var g := ids[0];
      DeleteItemMoves(d.tables, g);
      DeleteItemLeaves(d.tables, g);
      MovedKeeps(d.tables, DeleteItem(d.tables, g), g);
      MovedExact(d.tables, DeleteItem(d.tables, g), g);
      var timer := if d.timer.Some? && d.timer.value.game == g then None else d.timer;
      DeleteEachExact(Deleting(DeleteItem(d.tables, g), timer, d.snaps + [TakeSnapshot(d.tables, g)]), ids[1..],
                      requireAll);
    }
  }

  lemma {:induction false} BulkEachExact(b: Bulking, ids: seq<GameId>, a: BulkAction, now: Instant)
    requires Ready(b.tables) && AllExact(b.tables) && BulkEach(b, ids, a, now).Ok?
    ensures AllExact(BulkEach(b, ids, a, now).value.tables)
    decreases ids
  {
    hide Sound, Moves, ApplyChange, TakeSnapshot, KeepsOrder, AllLinked, Linked, TotalsAreSums, AllExact, EditTags;
    if ids != [] {
      var g := ids[0];
      var ch := BulkChange(a, if g in b.tables.items then b.tables.items[g].tags else []);
      var w := ApplyChange(b.tables, g, ch, Patch, now);
      if w.Ok? {
        LinkedAt(b.tables, g);
        ApplyChangeMoves(b.tables, g, ch, Patch, now);
        LinkedElsewhere(b.tables, w.value, g);
        assert ExactAt(b.tables, g) by { ExactThere(b.tables, g); }
        RaisingExact(b.tables, g, ch, Patch, now);
        MovedExact(b.tables, w.value, g);
        BulkEachExact(Bulking(w.value, b.snaps + [TakeSnapshot(b.tables, g)]), ids[1..], a, now);
      } else {
        BulkEachExact(b, ids[1..], a, now);
      }
    }
  }

  lemma ExactThere(t: Tables, g: GameId)
    requires AllExact(t)
    ensures ExactAt(t, g)
  {
    hide TotalsAreSums;
  }

  lemma LinkedElsewhere(a: Tables, b: Tables, g: GameId)
    requires Moves(a, b, g) && AllLinked(a) && g in b.items && Linked(b, g)
    ensures Ready(b)
  {
    hide Sound, Evolves, Covered, OnlyItem, Linked, KeepsOrder;
    InOrderElsewhere(a, b, g);
  }

  // ---- Any step -----------------------------------------------------------

  /** The step commits, and one of the MAX(0, ...) it runs changes a total. */
  ghost predicate ClampFires(db: Db, s: Step) {
    Attempt(db, s).Ok? &&
    match s
    case DoWrite(g, ch, mode, _, _) => WriteClamps(db.tables, g, ch, mode)
    case DoReplace(g, ch, _, _) => WriteClamps(db.tables, g, ReplaceChange(ch), Upsert)
    case DoUndo(token, _) => token in db.undo && RestoreClamps(db.undo[token].snaps)
    case DoUndoImport(id, _) => id in db.batches && RestoreClamps(db.batches[id].snaps)
    case DoRemoveSession(id, _, _) => DeleteClamps(db.tables, id)
    case DoEditSession(id, e, _, _) =>
      id in db.tables.sessions
      && UpdateClamps(db.tables, id, if e.minutes.Some? then e.minutes.value else db.tables.sessions[id].minutes)
    case DoDeletePlaythrough(id, _, _) =>
      id in db.tables.runs
      && CascadeClamps(db.tables, db.tables.runs[id].game, Ascending(SessionsOfRun(db.tables, id)))
    case _ => false
  }

  lemma SaveUndoTables(db: Db, t: Tables, snaps: seq<Snapshot>, token: nat, now: Instant)
    ensures SaveUndo(db, t, snaps, token, now).Ok? ==> SaveUndo(db, t, snaps, token, now).value.tables == t
  {
  }

  /** A committed change of game g, whose totals stay exact or not. */
  lemma OneExact(a: Tables, b: Tables, g: GameId, clamps: bool)
    requires Sound(a) && AllExact(a) && Moves(a, b, g) && (ExactAt(b, g) <==> !clamps)
    ensures AllExact(b) <==> !clamps
  {
    hide Sound, Moves, AllExact, ExactAt;
    MovedExact(a, b, g);
  }

  lemma WriteStep(db: Db, g: GameId, ch: Change, mode: Mode, token: nat, now: Instant)
    requires Inv(db) && AllExact(db.tables) && Write(db, g, ch, mode, token, now).Ok?
    ensures AllExact(Write(db, g, ch, mode, token, now).value.tables) <==> !WriteClamps(db.tables, g, ch, mode)
  {
    hide Sound, LogsGood, AllExact, TotalsAreSums, Moves, ApplyChange, SaveUndo, WriteClamps, TakeSnapshot,
         KeepsOrder, Linked;
    LinkedAt(db.tables, g);
    ExactThere(db.tables, g);
    ApplyChangeMoves(db.tables, g, ch, mode, now);
    var t := ApplyChange(db.tables, g, ch, mode, now).value;
    WriteExact(db.tables, g, ch, mode, now);
    OneExact(db.tables, t, g, WriteClamps(db.tables, g, ch, mode));
    SaveUndoTables(db, t, [TakeSnapshot(db.tables, g)], token, now);
  }

  lemma DeleteStep(db: Db, ids: seq<GameId>, requireAll: bool, token: nat, now: Instant)
    requires Sound(db.tables) && AllExact(db.tables) && DeleteMany(db, ids, requireAll, token, now).Ok?
    ensures AllExact(DeleteMany(db, ids, requireAll, token, now).value.tables)
  {
    hide Sound, AllExact, DeleteEach, SaveUndo;
    DeleteEachExact(Deleting(db.tables, db.timer, []), ids, requireAll);
    var d := DeleteEach(Deleting(db.tables, db.timer, []), ids, requireAll).value;
    SaveUndoTables(db.(timer := d.timer), d.tables, d.snaps, token, now);
  }

  lemma BulkStep(db: Db, a: BulkAction, token: nat, now: Instant)
    requires Ready(db.tables) && AllExact(db.tables) && Bulk(db, a, token, now).Ok?
    ensures AllExact(Bulk(db, a, token, now).value.tables)
  {
    hide Sound, AllLinked, AllExact, DeleteMany, BulkEach, SaveUndo, DedupeIds;
    var ids := DedupeIds(a.games, {});
    if a.remove {
      DeleteStep(db, ids, false, token, now);
    } else {
      BulkEachExact(Bulking(db.tables, []), ids, a, now);
      var b := BulkEach(Bulking(db.tables, []), ids, a, now).value;
      SaveUndoTables(db, b.tables, b.snaps, token, now);
    }
  }

  lemma ImportStep(db: Db, es: seq<ImportEntry>, id: nat, now: Instant)
    requires Ready(db.tables) && AllExact(db.tables) && RunImport(db, es, id, now).Ok?
    ensures AllExact(RunImport(db, es, id, now).value.tables)
  {
    hide Ready, AllExact, ImportEach;
    ImportEachExact(Batch(db.tables, [], 0, 0, 0), Heads(es, {}), now);
  }

  lemma LogStep(db: Db, g: GameId, day: Day, minutes: int, source: Source, token: nat, now: Instant)
    requires Inv(db) && AllExact(db.tables) && 0 < minutes && LogOnCurrent(db, g, day, minutes, source, token, now).Ok?
    ensures AllExact(LogOnCurrent(db, g, day, minutes, source, token, now).value.tables)
  {
    hide Sound, LogsGood, AllExact, TotalsAreSums, Moves, InsertSession, SaveUndo, InsertClamps, TakeSnapshot;
    var t := db.tables;
    var s := Session(g, t.items[g].current, day, minutes, "", source, now);
    LinkedAt(t, g);
    ExactThere(t, g);
    FreshSessionId(t);
    InsertSessionOk(t, t.sessSeq + 1, s, now);
    InsertSessionMoves(t, t.sessSeq + 1, s, now);
    PositiveSession(t, s);
    InsertTotals(t, t.sessSeq + 1, s, now);
    OneExact(t, InsertSession(t, t.sessSeq + 1, s, now).value, g, false);
    SaveUndoTables(db, InsertSession(t, t.sessSeq + 1, s, now).value, [TakeSnapshot(t, g)], token, now);
  }

  lemma RemoveStep(db: Db, id: nat, token: nat, now: Instant)
    requires Inv(db) && AllExact(db.tables) && RemoveSession(db, id, token, now).Ok?
    ensures AllExact(RemoveSession(db, id, token, now).value.tables) <==> !DeleteClamps(db.tables, id)
  {
    hide Sound, LogsGood, AllLinked, AllExact, TotalsAreSums, Moves, DeleteSession, SaveUndo, DeleteClamps,
         TakeSnapshot;
    var t := db.tables;
    var g := t.sessions[id].game;
    SessionIsSound(t, id);
    ExactThere(t, g);
    DeleteSessionMoves(t, id);
    DeleteTotals(t, id);
    OneExact(t, DeleteSession(t, id), g, DeleteClamps(t, id));
    SaveUndoTables(db, DeleteSession(t, id), [TakeSnapshot(t, g)], token, now);
  }

  lemma EditStep(db: Db, id: nat, e: SessionEdit, token: nat, now: Instant)
    requires Inv(db) && AllExact(db.tables) && EditSession(db, id, e, token, now).Ok?
    ensures AllExact(EditSession(db, id, e, token, now).value.tables) <==>
            !UpdateClamps(db.tables, id, if e.minutes.Some? then e.minutes.value else db.tables.sessions[id].minutes)
  {
    hide Sound, LogsGood, AllLinked, AllExact, TotalsAreSums, Moves, UpdateSession, SaveUndo, UpdateClamps,
         TakeSnapshot, Text.Trim;
    var t := db.tables;
    var s := t.sessions[id];
    var day := if e.playedOn.Some? then e.playedOn.value.day else s.playedOn;
    var minutes := if e.minutes.Some? then e.minutes.value else s.minutes;
    var note := if e.note.Some? then Text.Trim(e.note.value) else s.note;
    SessionIsSound(t, id);
    ExactThere(t, s.game);
    UpdateSessionMoves(t, id, day, minutes, note);
    UpdateTotals(t, id, day, minutes, note);
    OneExact(t, UpdateSession(t, id, day, minutes, note).value, s.game, UpdateClamps(t, id, minutes));
    SaveUndoTables(db, UpdateSession(t, id, day, minutes, note).value, [TakeSnapshot(t, s.game)], token, now);
  }

  lemma ClearCurrentTotals(t: Tables, g: GameId, id: nat)
    ensures AllExact(t) <==> AllExact(ClearCurrent(t, g, id))
  {
    SameTotals(t, ClearCurrent(t, g, id));
    hide AllExact;
  }

  lemma DeleteRunStep(db: Db, id: nat, token: nat, now: Instant)
    requires Inv(db) && AllExact(db.tables) && DeletePlaythrough(db, id, token, now).Ok?
    ensures AllExact(DeletePlaythrough(db, id, token, now).value.tables) <==>
            !CascadeClamps(db.tables, db.tables.runs[id].game, Ascending(SessionsOfRun(db.tables, id)))
  {
    hide Sound, LogsGood, AllLinked, AllExact, TotalsAreSums, Moves, DeleteSessions, SaveUndo, CascadeClamps,
         TakeSnapshot, Ascending, ClearCurrent, Lists, SessionsOfRun;
    var t := db.tables;
    var g, ids := t.runs[id].game, Ascending(SessionsOfRun(t, id));
    RunIsSound(t, id);
    ExactThere(t, g);
    AscendingIsList(t, id);
    CascadeMoves(t, id, ids);
    CascadeExact(t, id, ids);
    OneExact(t, DeleteRun(t, id), g, CascadeClamps(t, g, ids));
    ClearCurrentTotals(DeleteRun(t, id), g, id);
    SaveUndoTables(db, ClearCurrent(DeleteRun(t, id), g, id), [TakeSnapshot(t, g)], token, now);
  }

  lemma EditRunStep(db: Db, id: nat, e: RunEdit, token: nat, now: Instant)
    requires AllExact(db.tables) && EditPlaythrough(db, id, e, token, now).Ok?
    ensures AllExact(EditPlaythrough(db, id, e, token, now).value.tables)
  {
    hide AllExact, TakeSnapshot, SaveUndo, Text.Trim, RunEditError;
    var t := db.tables;
    var g := t.runs[id].game;
    var t1 := if e == NO_RUN_EDIT || g !in t.items then t
    else UpdateItem(UpdateRun(t, id, EditedRun(t.runs[id], e)), g, t.items[g]);
    SameTotals(t, t1);
    SaveUndoTables(db, t1, [TakeSnapshot(t, g)], token, now);
  }

  lemma UndoStep(db: Db, token: nat, now: Instant)
    requires Inv(db) && AllExact(db.tables) && Undo(db, token, now).Ok?
    ensures AllExact(Undo(db, token, now).value.tables) <==> !RestoreClamps(db.undo[token].snaps)
  {
    hide Sound, AllLinked, AllExact, SnapsGood, RestoreAll, RestoreClamps;
    RestoreAllExact(db.tables, db.undo[token].snaps, now);
  }

  lemma UndoImportStep(db: Db, id: nat, now: Instant)
    requires Inv(db) && AllExact(db.tables) && UndoImport(db, id, now).Ok?
    ensures AllExact(UndoImport(db, id, now).value.tables) <==> !RestoreClamps(db.batches[id].snaps)
  {
    hide Sound, AllLinked, AllExact, SnapsGood, RestoreAll, RestoreClamps;
    RestoreAllExact(db.tables, db.batches[id].snaps, now);
  }

  lemma CatalogStep(t: Tables, g: GameId, game: Game)
    requires AllExact(t)
    ensures AllExact(PutGame(t, g, game))
  {
    PutGameIs(t, g, game);
    hide PutGame, AllExact;
    SameTotals(t, PutGame(t, g, game));
  }

  lemma StopTimerStep(db: Db, log: bool, minutes: int, playedOn: DayText, token: nat, now: Instant)
    requires Inv(db) && AllExact(db.tables)
    ensures AllExact(StopTimer(db, log, minutes, playedOn, token, now).0.tables)
  {
    hide Sound, AllLinked, SnapsGood, AllExact, LogOnCurrent;
    var stopped := db.(timer := None);
    if db.timer.Some? && log {
      var m := TimerMinutes(minutes, db.timer.value.startedAt, now);
      if LogOnCurrent(stopped, db.timer.value.game, Today(playedOn, now), m, Timer, token, now).Ok? {
        LogStep(stopped, db.timer.value.game, Today(playedOn, now), m, Timer, token, now);
      }
    }
  }

  lemma InvReady(db: Db)
    requires Inv(db)
    ensures Ready(db.tables)
  {
  }

  lemma SameRowsExact(a: Tables, b: Tables)
    requires a.items == b.items && a.runs == b.runs && a.sessions == b.sessions
    ensures AllExact(a) <==> AllExact(b)
  {
    SameTotals(a, b);
    hide AllExact;
  }

  /** From exact totals a step leads to exact totals exactly when its clamp does not fire. */
  lemma StepExact(db: Db, s: Step)
    requires Inv(db) && AllExact(db.tables)
    ensures AllExact(Next(db, s).tables) <==> !ClampFires(db, s)
  {
    hide Inv, AllExact, Ready, Write, DeleteMany, Bulk, RunImport, Undo, UndoImport, LogOnCurrent, RemoveSession,
         EditSession, EditPlaythrough, DeletePlaythrough, StopTimer, PutGame, ReplaceChange, WriteClamps,
         RestoreClamps, DeleteClamps, UpdateClamps, CascadeClamps, Ascending, SessionsOfRun, Sound;
    InvReady(db);
    InvTables(db);
    if Attempt(db, s).Ok? {
      match s
      case DoWrite(g, ch, mode, token, now) => WriteStep(db, g, ch, mode, token, now);
      case DoReplace(g, ch, token, now) => WriteStep(db, g, ReplaceChange(ch), Upsert, token, now);
      case DoDelete(g, token, now) => DeleteStep(db, [g], true, token, now);
      case DoBulk(a, token, now) => BulkStep(db, a, token, now);
      case DoImport(es, id, now) => ImportStep(db, es, id, now);
      case DoUndo(token, now) => UndoIs(db, token, now); UndoStep(db, token, now);
      case DoUndoImport(id, now) => UndoIs(db, id, now); UndoImportStep(db, id, now);
      case DoLogSynced(g, m, day, source, token, now) => LogStep(db, g, day.day, m, source, token, now);
      case DoRemoveSession(id, token, now) => RemoveStep(db, id, token, now);
      case DoEditSession(id, e, token, now) => NamesSession(db, id, e, token, now); EditStep(db, id, e, token, now);
      case DoEditPlaythrough(id, e, token, now) => EditRunStep(db, id, e, token, now);
      case DoDeletePlaythrough(id, token, now) => NamesRun(db, id, token, now); DeleteRunStep(db, id, token, now);
      case DoStartTimer(g, now) => SameRowsExact(db.tables, Next(db, s).tables);
      case DoStopTimer(log, m, day, token, now) => StopTimerStep(db, log, m, day, token, now);
      case DoPrune(_) =>
      case DoPrefs => SameRowsExact(db.tables, Next(db, s).tables);
      case CatalogPut(g, game) => CatalogStep(db.tables, g, game);
      case OtherUsers(_, _) => SameRowsExact(db.tables, Next(db, s).tables);
    }
  }

  lemma UndoIs(db: Db, k: nat, now: Instant)
    ensures Undo(db, k, now).Ok? ==> k in db.undo
    ensures UndoImport(db, k, now).Ok? ==> k in db.batches
  {
  }

  lemma NamesSession(db: Db, id: nat, e: SessionEdit, token: nat, now: Instant)
    requires EditSession(db, id, e, token, now).Ok?
    ensures id in db.tables.sessions
  {
  }

  lemma NamesRun(db: Db, id: nat, token: nat, now: Instant)
    requires DeletePlaythrough(db, id, token, now).Ok?
    ensures id in db.tables.runs
  {
  }

  // ---- Any history --------------------------------------------------------

  ghost predicate NeverClamps(db: Db, steps: seq<Step>)
    decreases steps
  {
    steps == [] || (!ClampFires(db, steps[0]) && NeverClamps(Next(db, steps[0]), steps[1..]))
  }

  lemma PlayCons(db: Db, steps: seq<Step>, k: nat)
    requires 0 < k <= |steps|
    ensures Play(db, steps[..k]) == Play(Next(db, steps[0]), steps[1..][..k - 1])
  {
    assert steps[..k][1..] == steps[1..][..k - 1];
    hide Next;
  }

  /** All along a history the totals are the sums of their sessions exactly when no step's clamp fires. */
  lemma {:induction false} HistoryExact(db: Db, steps: seq<Step>)
    requires Inv(db) && AllExact(db.tables)
    ensures NeverClamps(db, steps) <==> forall k | 0 <= k <= |steps| :: AllExact(Play(db, steps[..k]).tables)
    decreases steps
  {
    hide Inv, AllExact, Next, ClampFires, Proceeds;
    if steps == [] {
      assert steps[..0] == [];
    } else {
      var d1 := Next(db, steps[0]);
      StepInvariant(db, steps[0]);
      StepExact(db, steps[0]);
      PlayCons(db, steps, 1);
      assert steps[..0] == [] && steps[1..][..0] == [];
      if AllExact(d1.tables) {
        HistoryExact(d1, steps[1..]);
        forall k | 0 < k <= |steps|
          ensures Play(db, steps[..k]) == Play(d1, steps[1..][..k - 1]) { PlayCons(db, steps, k); }
        if forall k | 0 <= k <= |steps| :: AllExact(Play(db, steps[..k]).tables) {
          forall k | 0 <= k <= |steps[1..]| ensures AllExact(Play(d1, steps[1..][..k]).tables) {
            assert AllExact(Play(db, steps[..k + 1]).tables);
          }
        }
      }
    }
  }

  /** In every library reached without a clamp, each total is the sum of its sessions. */
  lemma ReachableExact(steps: seq<Step>)
    requires NeverClamps(EMPTY, steps)
    ensures var t := Play(EMPTY, steps).tables;
            && (forall g | g in t.items :: t.items[g].minutes == ItemSum(t.sessions, g))
            && (forall id | id in t.runs :: t.runs[id].minutes == RunSum(t.sessions, id))
  {
    hide Play, NeverClamps, ItemSum, RunSum, OrderInv;
    EmptyHolds();
    HistoryExact(EMPTY, steps);
    HistoryInvariant(EMPTY, steps);
    assert steps[..|steps|] == steps;
    var t := Play(EMPTY, steps).tables;
    forall id | id in t.runs ensures t.runs[id].minutes == RunSum(t.sessions, id) {
      RunIsSound(t, id);
      assert TotalsAreSums(t, t.runs[id].game);
      assert RunExact(t, id);
    }
  }
}
