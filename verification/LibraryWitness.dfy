// Histories that reach the states where the library does not keep what one
// would expect of it, step by step from an empty library.
module LibraryWitness {
  import opened Prelude
  import opened LibraryTypes
  import opened LibraryTables
  import opened LibraryLedger
  import opened LibraryWrites
  import opened LibraryUndo
  import opened LibraryImport
  import opened LibraryHistory
  import opened LibraryInvariant
  import opened LibraryExact
  import Text

  const GAME := Game("g", "", "", 0, 0, [])
  const FINISH := NO_CHANGE.(status := Some(Is(Completed)), minutes := Some(100))
  const PLAY_AGAIN := NO_CHANGE.(status := Some(Is(Playing)))
  const LESS := NO_CHANGE.(minutes := Some(50))

  const LISTED := EMPTY.tables.(games := map[1 := GAME])
  const RUN_ONE := Run(1, "", None, Some(0), None, 100, None, "", 0, None)
  const RUN_TWO := Run(1, "", Some(0), None, None, 0, None, "", 0, None)
  const SESSION_ONE := Session(1, Some(1), 0, 100, "", Adjust, 0)
  const DONE := ItemState(Completed, 0, [], "", [], NoMedium)
  const PLAYED := ItemState(Playing, 0, [], "", [], NoMedium)
  const NEW_ROW := Row(Completed, 0, 0, [], "", None, Some(0), 0, 0, "", NoMedium, [], None, 1)
  const SAVED := LISTED.(items := map[1 := NEW_ROW], rev := Some(1))
  const OPENED := SAVED.(
                  items := map[1 := NEW_ROW.(current := Some(1), rev := 2)], rev := Some(2),
                  runs := map[1 := RUN_ONE.(minutes := 0, finishedOn := None)], runSeq := 1, runOwner := map[1 := 1])
  const CLOSED := OPENED.(runs := map[1 := RUN_ONE.(minutes := 0)])
  const FINISHED := CLOSED.(
    items := map[1 := NEW_ROW.(current := Some(1), minutes := 100, rev := 3)], rev := Some(3),
    runs := map[1 := RUN_ONE], sessions := map[1 := SESSION_ONE], sessSeq := 1, sessOwner := map[1 := 1])
  const AGAIN := FINISHED.items[1].(status := Playing, startedAt := Some(0), rev := 4)
  const REPLAYING := FINISHED.(
                     items := map[1 := AGAIN.(current := Some(2), rev := 5)], rev := Some(5),
                     runs := map[1 := RUN_ONE, 2 := RUN_TWO], runSeq := 2, runOwner := map[1 := 1, 2 := 1])

  lemma Saves()
    ensures Check(LISTED, 1, FINISH, Upsert) == Ok(DONE)
    ensures SaveItem(LISTED, 1, DONE, FINISH, 0) == Ok(SAVED)
  {
    assert SaveItem(LISTED, 1, DONE, FINISH, 0).value.items == SAVED.items;
  }

  lemma Opens()
    ensures OpenRun(SAVED, 1, "", None, 0) == (OPENED, Some(1))
  {
    var made := InsertRun(SAVED, 1, Run(1, "", None, None, None, 0, None, "", 0, None)).value;
    assert made == SAVED.(runs := OPENED.runs, runSeq := 1, runOwner := map[1 := 1]);
    assert UpdateItem(made, 1, made.items[1].(current := Some(1))).items == OPENED.items;
  }

  lemma Closes()
    ensures UpdateRuns(SAVED, 1, None, DONE, FINISH, 0) == (CLOSED, Some(1))
  {
    Opens();
    hide OpenRun;
    assert CurrentRun(SAVED, 1) == None;
    assert UpdateRun(OPENED, 1, Finished(OPENED.runs[1], NEW_ROW, DONE, FINISH, 0)) == CLOSED;
    assert UpdateRun(CLOSED, 1, EditRun(CLOSED.runs[1], NEW_ROW, DONE, FINISH)) == CLOSED;
  }

  lemma Logs()
    ensures LogMinutes(CLOSED, 1, Some(1), FINISH, 0) == Ok(FINISHED)
  {
    var t := InsertSession(CLOSED, 1, SESSION_ONE, 0);
    assert t.value.items == FINISHED.items;
    assert t.value.runs == FINISHED.runs;
  }

  lemma Finishes()
    ensures ApplyChange(LISTED, 1, FINISH, Upsert, 0) == Ok(FINISHED)
  {
    hide Check, SaveItem, UpdateRuns, LogMinutes;
    Saves();
    Closes();
    Logs();
  }

  lemma Resaves()
    ensures Check(FINISHED, 1, PLAY_AGAIN, Patch) == Ok(PLAYED)
    ensures SaveItem(FINISHED, 1, PLAYED, PLAY_AGAIN, 0) == Ok(FINISHED.(items := map[1 := AGAIN], rev := Some(4)))
  {
    assert SaveItem(FINISHED, 1, PLAYED, PLAY_AGAIN, 0).value.items == map[1 := AGAIN];
  }

  lemma StartsAgain()
    ensures var t := FINISHED.(items := map[1 := AGAIN], rev := Some(4));
            UpdateRuns(t, 1, RowOf(FINISHED, 1), PLAYED, PLAY_AGAIN, 0) == (REPLAYING, Some(2))
  {
    var t := FINISHED.(items := map[1 := AGAIN], rev := Some(4));
    var made := InsertRun(t, 2, RUN_TWO).value;
    assert made == t.(runs := REPLAYING.runs, runSeq := 2, runOwner := map[1 := 1, 2 := 1]);
    assert UpdateItem(made, 1, AGAIN.(current := Some(2))).items == REPLAYING.items;
    assert OpenRun(t, 1, "", Some(0), 0) == (REPLAYING, Some(2));
    hide OpenRun;
    assert UpdateRun(REPLAYING, 2, RUN_TWO) == REPLAYING;
  }

  lemma PlaysAgain()
    ensures ApplyChange(FINISHED, 1, PLAY_AGAIN, Patch, 0) == Ok(REPLAYING)
  {
    hide Check, SaveItem, UpdateRuns;
    Resaves();
    StartsAgain();
  }

  // ---- A run that falls behind its sessions -------------------------------

  /** The tables, and undo tokens taken so far. */
  ghost predicate Reaches(db: Db, t: Tables, n: nat) {
    db.tables == t && db.timer.None? && db.batches == map[] && forall k | k in db.undo :: k <= n
  }

  lemma ListsGame()
    ensures Reaches(Play(EMPTY, [CatalogPut(1, GAME)]), LISTED, 0)
  {
    var s := CatalogPut(1, GAME);
    PlaySnoc(EMPTY, [], s);
    assert [] + [s] == [s];
  }

  lemma Writes(steps: seq<Step>, t: Tables, n: nat, ch: Change, mode: Mode, t1: Tables)
    requires Reaches(Play(EMPTY, steps), t, n) && ApplyChange(t, 1, ch, mode, 0) == Ok(t1)
    ensures Reaches(Play(EMPTY, steps + [DoWrite(1, ch, mode, n + 1, 0)]), t1, n + 1)
  {
    hide Play, ApplyChange, Reaches;
    PlaySnoc(EMPTY, steps, DoWrite(1, ch, mode, n + 1, 0));
    Commits(Play(EMPTY, steps), t, n, ch, mode, t1);
  }

  const FINISH_AND_PLAY :=
    [CatalogPut(1, GAME)] + [DoWrite(1, FINISH, Upsert, 1, 0)] + [DoWrite(1, PLAY_AGAIN, Patch, 2, 0)]

  lemma PlayedAgain()
    ensures Reaches(Play(EMPTY, FINISH_AND_PLAY), REPLAYING, 2)
  {
    hide Play, ApplyChange;
    ListsGame();
    Finishes();
    Writes([CatalogPut(1, GAME)], LISTED, 0, FINISH, Upsert, FINISHED);
    PlaysAgain();
    Writes([CatalogPut(1, GAME)] + [DoWrite(1, FINISH, Upsert, 1, 0)], FINISHED, 1, PLAY_AGAIN, Patch, REPLAYING);
  }

  const RESAVED := REPLAYING.(items := map[1 := REPLAYING.items[1].(rev := 6)], rev := Some(6))
  const SESSION_TWO := Session(1, Some(2), 0, -50, "", Adjust, 0)
  const LOWERED := RESAVED.(
                   items := map[1 := REPLAYING.items[1].(minutes := 50, rev := 7)], rev := Some(7),
                   sessions := map[1 := SESSION_ONE, 2 := SESSION_TWO], sessSeq := 2, sessOwner := map[1 := 1, 2 := 1])

  lemma Lowers()
    ensures Check(REPLAYING, 1, LESS, Patch) == Ok(PLAYED)
    ensures ApplyChange(REPLAYING, 1, LESS, Patch, 0) == Ok(LOWERED)
  {
    assert Check(REPLAYING, 1, LESS, Patch) == Ok(PLAYED);
    assert SaveItem(REPLAYING, 1, PLAYED, LESS, 0) == Ok(RESAVED) by {
      assert SaveItem(REPLAYING, 1, PLAYED, LESS, 0).value.items == RESAVED.items;
    }
    assert UpdateRuns(RESAVED, 1, RowOf(REPLAYING, 1), PLAYED, LESS, 0) == (RESAVED, Some(2)) by {
      assert UpdateRun(RESAVED, 2, RUN_TWO) == RESAVED;
    }
    hide Check, SaveItem, UpdateRuns;
    LogsLess();
    hide LogMinutes;
  }

  lemma LogsLess()
    ensures LogMinutes(RESAVED, 1, Some(2), LESS, 0) == Ok(LOWERED)
  {
    var t := InsertSession(RESAVED, 2, SESSION_TWO, 0);
    assert t.value.items == LOWERED.items;
    assert t.value.runs == LOWERED.runs;
  }

  lemma SessionsSum(g: GameId, r: nat)
    ensures ItemSum(REPLAYING.sessions, g) == if g == 1 then 100 else 0
    ensures RunSum(REPLAYING.sessions, r) == if r == 1 then 100 else 0
    ensures ItemSum(LOWERED.sessions, g) == if g == 1 then 50 else 0
    ensures RunSum(LOWERED.sessions, r) == if r == 1 then 100 else if r == 2 then -50 else 0
  {
    hide ItemSum, RunSum;
    SumsWith(map[], 1, SESSION_ONE, g, r);
    SumsWith(map[1 := SESSION_ONE], 2, SESSION_TWO, g, r);
    EmptySum(g, r);
  }

  lemma EmptySum(g: GameId, r: nat)
    ensures ItemSum(map[], g) == 0 && RunSum(map[], r) == 0
  {
    assert ItemMinutes(map[], g) == map[] && RunMinutes(map[], r) == map[];
  }

  lemma ReplayingExact()
    ensures AllExact(REPLAYING)
  {
    hide ItemSum, RunSum;
    SessionsSum(1, 1);
    SessionsSum(1, 2);
  }

  /**
   * An ordinary write breaks the equality of a run's total and its sessions:
   * finish a game at 100 minutes, start it again, then lower its total to 50.
   * The 50 minutes come off the new run, which has none.
   */
  lemma RunTotalClamps()
    ensures var db := Play(EMPTY, FINISH_AND_PLAY);
            var s := DoWrite(1, LESS, Patch, 3, 0);
            var t := Next(db, s).tables;
            && AllExact(db.tables) && ClampFires(db, s)
            && 1 in t.items && t.items[1].minutes == 50 == ItemSum(t.sessions, 1)
            && 2 in t.runs && t.runs[2].game == 1 && t.runs[2].minutes == 0 && RunSum(t.sessions, 2) == -50
  {
    hide Play, ItemSum, RunSum, AllExact, ApplyChange, Next, Attempt, WriteClamps;
    PlayedAgain();
    ReplayingExact();
    SessionsSum(1, 2);
    Lowers();
    LoweringClamps();
    Commits(Play(EMPTY, FINISH_AND_PLAY), REPLAYING, 2, LESS, Patch, LOWERED);
  }

  lemma LoweringClamps()
    ensures WriteClamps(REPLAYING, 1, LESS, Patch)
  {
    Lowers();
    hide Check, ApplyChange;
  }

  lemma Commits(db: Db, t: Tables, n: nat, ch: Change, mode: Mode, t1: Tables)
    requires Reaches(db, t, n) && ApplyChange(t, 1, ch, mode, 0) == Ok(t1)
    ensures Attempt(db, DoWrite(1, ch, mode, n + 1, 0)).Ok?
            && Reaches(Next(db, DoWrite(1, ch, mode, n + 1, 0)), t1, n + 1)
  {
    hide ApplyChange, TakeSnapshot;
  }

  // ---- A run that is opened again -----------------------------------------

  const REOPEN := NO_RUN_EDIT.(finishedOn := Some(NoDay))

  /** Clearing the end of the finished run leaves the game with two open runs. */
  lemma TwoOpenRuns()
    ensures var db := Play(EMPTY, FINISH_AND_PLAY);
            var s := DoEditPlaythrough(1, REOPEN, 3, 0);
            var t := Next(db, s).tables;
            && OrderInv(db) && Reopening(db, s) && !OrderInv(Next(db, s))
            && 1 in t.runs && t.runs[1].game == 1 && t.runs[1].finishedOn.None?
            && 2 in t.runs && t.runs[2].game == 1 && t.runs[2].finishedOn.None?
  {
    hide Play, OrderInv, Inv;
    PlayedAgain();
    EmptyHolds();
    OnlyEditsReopen(EMPTY, FINISH_AND_PLAY);
    HistoryInvariant(EMPTY, FINISH_AND_PLAY);
    var db := Play(EMPTY, FINISH_AND_PLAY);
    Edits(db);
    StepInvariant(db, DoEditPlaythrough(1, REOPEN, 3, 0));
    hide Reaches, Next;
  }

  lemma Edits(db: Db)
    requires Reaches(db, REPLAYING, 2)
    ensures var s := DoEditPlaythrough(1, REOPEN, 3, 0);
            var t := Next(db, s).tables;
            && Reopening(db, s)
            && 1 in t.runs && t.runs[1].game == 1 && t.runs[1].finishedOn.None?
            && 2 in t.runs && t.runs[2].game == 1 && t.runs[2].finishedOn.None?
  {
    hide TakeSnapshot;
  }

  lemma {:induction false} OnlyEditsReopen(db: Db, steps: seq<Step>)
    requires forall s | s in steps :: !s.DoEditPlaythrough?
    ensures NeverReopens(db, steps)
    decreases steps
  {
    hide Next, Reopens;
    if steps != [] {
      assert steps[0] in steps;
      OnlyEditsReopen(Next(db, steps[0]), steps[1..]);
    }
  }

  // ---- An undo that raises a total ----------------------------------------

  const SET_TEN := NO_CHANGE.(minutes := Some(10))
  const SET_ZERO := NO_CHANGE.(minutes := Some(0))
  const TEN := Session(1, None, 0, 10, "", Adjust, 0)
  const BACK := Session(1, None, 0, -10, "", Adjust, 0)
  const PLAYED_TEN := Session(1, None, 0, 10, "", Steam, 0)
  const HELD := Row(Backlog, 0, 10, [], "", None, None, 0, 0, "", NoMedium, [], None, 2)
  const TEN_SET := LISTED.(
    items := map[1 := HELD], rev := Some(2), sessions := map[1 := TEN], sessSeq := 1, sessOwner := map[1 := 1])
  const ZERO_SET := TEN_SET.(
    items := map[1 := HELD.(minutes := 0, rev := 4)], rev := Some(4),
    sessions := map[1 := TEN, 2 := BACK], sessSeq := 2, sessOwner := map[1 := 1, 2 := 1])
  const TEN_MORE := ZERO_SET.(
    items := map[1 := HELD.(minutes := 10, rev := 5)], rev := Some(5),
    sessions := map[1 := TEN, 2 := BACK, 3 := PLAYED_TEN], sessSeq := 3, sessOwner := map[1 := 1, 2 := 1, 3 := 1])
  const FIRST_GONE := TEN_MORE.(
    items := map[1 := HELD.(minutes := 0, rev := 6)], rev := Some(6), sessions := map[2 := BACK, 3 := PLAYED_TEN])

  lemma SetsTen()
    ensures ApplyChange(LISTED, 1, SET_TEN, Upsert, 0) == Ok(TEN_SET)
  {
    var st := ItemState(Backlog, 0, [], "", [], NoMedium);
    var t1 := LISTED.(items := map[1 := HELD.(minutes := 0, rev := 1)], rev := Some(1));
    assert Check(LISTED, 1, SET_TEN, Upsert) == Ok(st);
    assert SaveItem(LISTED, 1, st, SET_TEN, 0) == Ok(t1)
    by { assert SaveItem(LISTED, 1, st, SET_TEN, 0).value.items == t1.items; }
    assert UpdateRuns(t1, 1, None, st, SET_TEN, 0) == (t1, None);
    hide Check, SaveItem, UpdateRuns;
    assert LogMinutes(t1, 1, None, SET_TEN, 0) == Ok(TEN_SET)
    by { assert InsertSession(t1, 1, TEN, 0).value.items == TEN_SET.items; }
    hide LogMinutes;
  }

  lemma SetsZero()
    ensures ApplyChange(TEN_SET, 1, SET_ZERO, Patch, 0) == Ok(ZERO_SET)
  {
    var st := ItemState(Backlog, 0, [], "", [], NoMedium);
    var t1 := TEN_SET.(items := map[1 := HELD.(rev := 3)], rev := Some(3));
    assert Check(TEN_SET, 1, SET_ZERO, Patch) == Ok(st);
    assert SaveItem(TEN_SET, 1, st, SET_ZERO, 0) == Ok(t1)
    by { assert SaveItem(TEN_SET, 1, st, SET_ZERO, 0).value.items == t1.items; }
    assert UpdateRuns(t1, 1, Some(HELD), st, SET_ZERO, 0) == (t1, None);
    hide Check, SaveItem, UpdateRuns;
    LogsZero();
    hide LogMinutes;
  }

  lemma LogsZero()
    ensures LogMinutes(TEN_SET.(items := map[1 := HELD.(rev := 3)], rev := Some(3)), 1, None, SET_ZERO, 0) ==
            Ok(ZERO_SET)
  {
    var t1 := TEN_SET.(items := map[1 := HELD.(rev := 3)], rev := Some(3));
    assert InsertSession(t1, 2, BACK, 0).value.items == ZERO_SET.items;
  }

  lemma LogsTen()
    ensures InsertSession(ZERO_SET, 3, PLAYED_TEN, 0) == Ok(TEN_MORE)
  {
    assert InsertSession(ZERO_SET, 3, PLAYED_TEN, 0).value.items == TEN_MORE.items;
  }

  lemma RemovesFirst()
    ensures DeleteSession(TEN_MORE, 1) == FIRST_GONE
  {
    assert DeleteSession(TEN_MORE, 1).items == FIRST_GONE.items;
  }

  const LOGGED := [CatalogPut(1, GAME)] + [DoWrite(1, SET_TEN, Upsert, 1, 0)] + [DoWrite(1, SET_ZERO, Patch, 2, 0)]
  const LOG_TEN := DoLogSynced(1, 10, ADay(0), Steam, 3, 0)
  const REMOVE_FIRST := DoRemoveSession(1, 4, 0)
  const UNTOUCHED := DoWrite(1, NO_CHANGE, Patch, 5, 0)

  lemma FirstRemoved()
    ensures Reaches(Play(EMPTY, LOGGED + [LOG_TEN] + [REMOVE_FIRST]), FIRST_GONE, 4)
  {
    hide Play, ApplyChange;
    ListsGame();
    SetsTen();
    Writes([CatalogPut(1, GAME)], LISTED, 0, SET_TEN, Upsert, TEN_SET);
    SetsZero();
    Writes([CatalogPut(1, GAME)] + [DoWrite(1, SET_TEN, Upsert, 1, 0)], TEN_SET, 1, SET_ZERO, Patch, ZERO_SET);
    var db := Play(EMPTY, LOGGED);
    PlaySnoc(EMPTY, LOGGED, LOG_TEN);
    PlaySnoc(EMPTY, LOGGED + [LOG_TEN], REMOVE_FIRST);
    ThenRemoves(db);
    hide Next, Reaches;
  }

  lemma ThenRemoves(db: Db)
    requires Reaches(db, ZERO_SET, 2)
    ensures Reaches(Next(Next(db, LOG_TEN), REMOVE_FIRST), FIRST_GONE, 4)
  {
    hide InsertSession, DeleteSession, TakeSnapshot;
    LogsTen();
    RemovesFirst();
  }

  lemma FirstGoneExact()
    ensures AllExact(FIRST_GONE) && !Replays(FIRST_GONE, 1)
  {
    hide ItemSum, RunSum, Sum, MinutesInOrder;
    SumsWith(map[], 2, BACK, 1, 0);
    SumsWith(map[2 := BACK], 3, PLAYED_TEN, 1, 0);
    assert map[2 := BACK][3 := PLAYED_TEN] == FIRST_GONE.sessions;
    EmptySum(1, 0);
    RefundFirst(FIRST_GONE);
    assert Sound(FIRST_GONE) by { FirstGoneSound(); }
    ExactTotalsReplay(FIRST_GONE, 1);
    hide Replays;
  }

  lemma FirstGoneSound()
    ensures Sound(FIRST_GONE)
  {
    hide Play;
    FirstRemoved();
    EmptyHolds();
    HistoryInvariant(EMPTY, LOGGED + [LOG_TEN] + [REMOVE_FIRST]);
    hide Sound;
  }

  /** When the first session in ID order takes minutes away, a first part of the sessions is negative. */
  lemma RefundFirst(t: Tables)
    requires SessionIds(t.sessions, 1) == {2, 3} && 2 in t.sessions && t.sessions[2].minutes == -10
    ensures !NeverNegative(MinutesInOrder(t, 1))
  {
    AscendingLists({2, 3});
    assert Least({2, 3}) == 2;
    var taken := TakeSessions(t.sessions, Ascending({2, 3}));
    assert taken[0].minutes == -10;
    var ms := MinutesInOrder(t, 1);
    assert ms[0] == -10;
    assert ms[..1] == [-10];
    assert Sum(ms[..1]) == -10;
  }

  /**
   * Undo need not bring a total back: set it to 10, then to 0, log 10 minutes
   * and delete the first session. The total is 0, as its sessions are. Any
   * write, undone, replays -10 and 10 and ends elsewhere.
   */
  lemma UndoMovesTotal()
    ensures var db := Play(EMPTY, LOGGED + [LOG_TEN] + [REMOVE_FIRST]);
            var r := Next(Next(db, UNTOUCHED), DoUndo(5, 0)).tables;
            && AllExact(db.tables) && SameButTotals(db.tables, r, 1)
            && db.tables.items[1].minutes == 0 < r.items[1].minutes
  {
    hide Play, AllExact, Inv, SameButTotals, ItemSum, RunSum, TakeSnapshot, ApplyChange, LibraryUndo.Replays;
    FirstRemoved();
    EmptyHolds();
    FirstGoneExact();
    var db := Play(EMPTY, LOGGED + [LOG_TEN] + [REMOVE_FIRST]);
    HistoryInvariant(EMPTY, LOGGED + [LOG_TEN] + [REMOVE_FIRST]);
    Untouched(db);
    UndoneMoves(db);
  }

  lemma Untouched(db: Db)
    requires Inv(db) && Reaches(db, FIRST_GONE, 4)
    ensures var d := Next(db, UNTOUCHED);
            5 in d.undo && d.undo[5] == UndoEntry([TakeSnapshot(FIRST_GONE, 1)], 0) && d == Play(db, [UNTOUCHED])
  {
    hide ApplyChange, TakeSnapshot, Linked;
    assert Check(FIRST_GONE, 1, NO_CHANGE, Patch).Ok?;
    LinkedAt(FIRST_GONE, 1);
    hide Check;
    ApplyChangeCommits(FIRST_GONE, 1, NO_CHANGE, Patch, 0);
    assert [UNTOUCHED][1..] == [];
  }

  lemma UndoneMoves(db: Db)
    requires Inv(db) && Reaches(db, FIRST_GONE, 4) && !LibraryUndo.Replays(FIRST_GONE, 1)
    ensures var r := Next(Next(db, UNTOUCHED), DoUndo(5, 0)).tables;
            SameButTotals(FIRST_GONE, r, 1) && 0 < r.items[1].minutes
  {
    hide Play, Inv, LibraryUndo.Replays, TakeSnapshot, Undo, SameButTotals, SameItem, Attempt, Proceeds;
    Untouched(db);
    var d := Next(db, UNTOUCHED);
    StepInvariant(db, UNTOUCHED);
    UndoesOne(db, d);
    var r := Undo(d, 5, 0).value;
    UndoNext(d);
    StepInvariant(d, DoUndo(5, 0));
    hide Next;
    InvTables(r);
    TotalDiffers(r.tables);
    hide Reaches, Sound;
  }

  lemma UndoNext(d: Db)
    requires Undo(d, 5, 0).Ok?
    ensures Next(d, DoUndo(5, 0)) == Undo(d, 5, 0).value
  {
    hide Undo;
  }

  lemma UndoesOne(db: Db, d: Db)
    requires Inv(db) && db.tables == FIRST_GONE && !LibraryUndo.Replays(FIRST_GONE, 1) && d == Play(db, [UNTOUCHED])
    requires 5 in d.undo && d.undo[5] == UndoEntry([TakeSnapshot(FIRST_GONE, 1)], 0)
    ensures var r := Undo(d, 5, 0);
            r.Ok? && SameButTotals(FIRST_GONE, r.value.tables, 1) && !SameItem(FIRST_GONE, r.value.tables, 1)
  {
    hide Play, Inv, LibraryUndo.Replays, TakeSnapshot, Undo, SameButTotals, SameItem;
    var snaps := [TakeSnapshot(FIRST_GONE, 1)];
    OneSnapshot(FIRST_GONE, 1);
    SnapshotGame(FIRST_GONE, 1);
    assert snaps[0].game == 1;
    UndoOverHistory(db, snaps, [UNTOUCHED], 5, 0);
    hide SnapsOf, Named;
  }

  lemma TotalDiffers(r: Tables)
    requires Sound(r) && SameButTotals(FIRST_GONE, r, 1) && !SameItem(FIRST_GONE, r, 1)
    ensures 0 < r.items[1].minutes
  {
    ItemIsSound(r, 1);
    hide Sound, SameSessions;
  }

  // ---- Imports ------------------------------------------------------------

  /** Ten minutes in all, twenty in one session. */
  const LONG_SESSION := ImportEntry(
                          1, Is(Playing), 0, 10, "", [], "", NoDate, NoDate, [ImportedSession(ADay(0), 20, "")])

  /** An import is refused, whole, for an entry whose sessions sum past its total on a run. */
  lemma ImportFails()
    ensures Attempt(Play(EMPTY, [CatalogPut(1, GAME)]), DoImport([LONG_SESSION], 1, 0)).Err?
  {
    hide Play, Sound, Linked, ImportOne, ApplyChange;
    ListsGame();
    ListedReady();
    assert Check(LISTED, 1, AddChange(LONG_SESSION), Upsert).Ok?;
    hide Check;
    ApplyChangeCommits(LISTED, 1, AddChange(LONG_SESSION), Upsert, 0);
    assert ImportedMinutes(LONG_SESSION.sessions) == 20;
    ImportRefused(LISTED, LONG_SESSION, 0);
    OneHead(LISTED, LONG_SESSION, 0);
    hide ImportAll;
  }

  lemma ListedReady()
    ensures Sound(LISTED) && RunsLinked(LISTED, 1)
  {
  }

  /** An import of one entry is that entry's import. */
  lemma OneHead(t: Tables, e: ImportEntry, now: Instant)
    requires e.game != 0
    ensures Heads([e], {}) == [e]
    ensures ImportAll(t, [e], now).Ok? <==> ImportOne(t, e, now).Ok?
    ensures ImportOne(t, e, now).Ok? ==>
              ImportAll(t, [e], now).value == Counted(Batch(t, [], 0, 0, 0), ImportOne(t, e, now).value)
  {
    hide ImportOne, Counted;
    assert [e][1..] == [];
    assert Heads([e], {}) == [e];
    var b, o := Batch(t, [], 0, 0, 0), ImportOne(t, e, now);
    if o.Ok? {
      assert ImportEach(Counted(b, o.value), [], now) == Ok(Counted(b, o.value));
      assert ImportEach(b, [e], now) == Ok(Counted(b, o.value));
    } else {
      assert ImportEach(b, [e], now) == Err(o.error);
    }
  }

  const BLANK_PLATFORM := ImportEntry(1, Is(Backlog), 0, 0, "", [], " ", NoDate, NoDate, [])
  const ROW := Row(Backlog, 0, 0, [], "", None, None, 0, 0, "", NoMedium, [], None, 1)

  /** The platform " " is no platform once trimmed, so a second import finds it missing again. */
  lemma ImportsAgain()
    ensures var first := Play(EMPTY, [CatalogPut(1, GAME)] + [DoImport([BLANK_PLATFORM], 1, 0)]);
            var again := Next(first, DoImport([BLANK_PLATFORM], 2, 0));
            && 1 in first.batches && 2 in again.batches && RevOf(first.tables) < RevOf(again.tables)
  {
    hide Play, TakeSnapshot, ImportOne;
    ListsGame();
    PlaySnoc(EMPTY, [CatalogPut(1, GAME)], DoImport([BLANK_PLATFORM], 1, 0));
    BlankAdded();
    OneHead(LISTED, BLANK_PLATFORM, 0);
    BlankFilled();
    OneHead(LISTED.(items := map[1 := ROW], rev := Some(1)), BLANK_PLATFORM, 0);
    hide ImportAll, Heads;
  }

  lemma BlankAdded()
    ensures var o := ImportOne(LISTED, BLANK_PLATFORM, 0);
            o.Ok? && o.value.snap.Some? && o.value.tables == LISTED.(items := map[1 := ROW], rev := Some(1))
  {
    hide TakeSnapshot;
    var st, t := ItemState(Backlog, 0, [], "", [], NoMedium), LISTED.(items := map[1 := ROW], rev := Some(1));
    var ch := AddChange(BLANK_PLATFORM);
    assert Check(LISTED, 1, ch, Upsert) == Ok(st);
    assert SaveItem(LISTED, 1, st, ch, 0) == Ok(t) by { assert SaveItem(LISTED, 1, st, ch, 0).value.items == t.items; }
    assert UpdateRuns(t, 1, None, st, ch, 0) == (t, None);
    hide Check, SaveItem, UpdateRuns;
    assert AddImportedSessions(t, BLANK_PLATFORM, 0) == Ok(t);
    hide AddImportedSessions;
  }

  lemma BlankFilled()
    ensures var t := LISTED.(items := map[1 := ROW], rev := Some(1));
            var o := ImportOne(t, BLANK_PLATFORM, 0);
            o.Ok? && o.value.snap.Some? && o.value.tables == t.(items := map[1 := ROW.(rev := 2)], rev := Some(2))
  {
    hide TakeSnapshot;
    var st, t := ItemState(Backlog, 0, [], "", [], NoMedium), LISTED.(items := map[1 := ROW], rev := Some(1));
    var t1 := t.(items := map[1 := ROW.(rev := 2)], rev := Some(2));
    var ch := FillChange(ROW, BLANK_PLATFORM);
    assert ch.platforms == Some([" "]);
    assert Check(t, 1, ch, Upsert) == Ok(st);
    assert SaveItem(t, 1, st, ch, 0) == Ok(t1) by { assert SaveItem(t, 1, st, ch, 0).value.items == t1.items; }
    assert UpdateRuns(t1, 1, Some(ROW), st, ch, 0) == (t1, None);
    hide Check, SaveItem, UpdateRuns;
  }
}
