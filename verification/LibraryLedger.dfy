// The play time ledger: what the stored totals have to do with the sessions
// they were folded from.
module LibraryLedger {
  import opened Prelude
  import opened LibraryTypes
  import Text
  import opened LibraryTables

  /** The sum of a finite map's values. */
  ghost function Total(m: map<nat, int>): int
    decreases |m|
  {
    if m.Keys == {} then 0 else m[Least(m.Keys)] + Total(m - {Least(m.Keys)})
  }

  lemma {:induction false} TotalWithout(m: map<nat, int>, k: nat)
    requires k in m
    ensures Total(m) == m[k] + Total(m - {k})
    decreases |m|
  {
    var l := Least(m.Keys);
    if k != l {
      TotalWithout(m - {l}, k);
      assert k in (m - {k}).Keys + {k} && l in (m - {k}).Keys;
      assert Least((m - {k}).Keys) == l;
      assert m - {l} - {k} == m - {k} - {l};
    }
  }

  // ---- Sums of sessions ---------------------------------------------------

  ghost function ItemMinutes(ss: map<nat, Session>, g: GameId): map<nat, int> {
    map id | id in ss && ss[id].game == g :: ss[id].minutes
  }

  ghost function RunMinutes(ss: map<nat, Session>, run: nat): map<nat, int> {
    map id | id in ss && ss[id].run == Some(run) :: ss[id].minutes
  }

  ghost function ItemSum(ss: map<nat, Session>, g: GameId): int {
    Total(ItemMinutes(ss, g))
  }

  ghost function RunSum(ss: map<nat, Session>, run: nat): int {
    Total(RunMinutes(ss, run))
  }

  lemma SumsWithout(ss: map<nat, Session>, id: nat, g: GameId, run: nat)
    requires id in ss
    ensures ItemSum(ss - {id}, g) == ItemSum(ss, g) - (if ss[id].game == g then ss[id].minutes else 0)
    ensures RunSum(ss - {id}, run) == RunSum(ss, run) - (if ss[id].run == Some(run) then ss[id].minutes else 0)
  {
    assert ItemMinutes(ss - {id}, g) == ItemMinutes(ss, g) - {id};
    assert RunMinutes(ss - {id}, run) == RunMinutes(ss, run) - {id};
    if ss[id].game == g { TotalWithout(ItemMinutes(ss, g), id); }
    else { assert ItemMinutes(ss, g) - {id} == ItemMinutes(ss, g); }
    if ss[id].run == Some(run) { TotalWithout(RunMinutes(ss, run), id); }
    else { assert RunMinutes(ss, run) - {id} == RunMinutes(ss, run); }
  }

  lemma SumsWith(ss: map<nat, Session>, id: nat, s: Session, g: GameId, run: nat)
    requires id !in ss
    ensures ItemSum(ss[id := s], g) == ItemSum(ss, g) + (if s.game == g then s.minutes else 0)
    ensures RunSum(ss[id := s], run) == RunSum(ss, run) + (if s.run == Some(run) then s.minutes else 0)
  {
    SumsWithout(ss[id := s], id, g, run);
    assert ss[id := s] - {id} == ss;
  }

  lemma SumsReplaced(ss: map<nat, Session>, id: nat, s: Session, g: GameId, run: nat)
    requires id in ss && s.game == ss[id].game && s.run == ss[id].run
    ensures ItemSum(ss[id := s], g) == ItemSum(ss, g) + (if s.game == g then s.minutes - ss[id].minutes else 0)
    ensures RunSum(ss[id := s], run) == RunSum(ss, run) + (if s.run == Some(run) then s.minutes - ss[id].minutes else 0)
  {
    SumsWithout(ss, id, g, run);
    SumsWith(ss - {id}, id, s, g, run);
    assert (ss - {id})[id := s] == ss[id := s];
  }

  // ---- The ledger invariant -----------------------------------------------

  /** No stored total is below the sum of its sessions (Sound keeps them at least zero). */
  ghost predicate Covered(t: Tables) {
    && (forall g | g in t.items :: ItemSum(t.sessions, g) <= t.items[g].minutes)
    && (forall id | id in t.runs :: RunSum(t.sessions, id) <= t.runs[id].minutes)
  }

  /** What every library statement about game g does. */
  ghost predicate Moves(a: Tables, b: Tables, g: GameId) {
    Steps(a, b, g) && (Covered(a) ==> Covered(b))
  }

  lemma MovesTransitive(a: Tables, b: Tables, c: Tables, g: GameId)
    requires Moves(a, b, g) && Moves(b, c, g)
    ensures Moves(a, c, g)
  {
    hide Sound, Evolves, OnlyItem, Covered;
    StepsTransitive(a, b, c, g);
  }

  lemma MovesReflexive(t: Tables, g: GameId)
    requires Sound(t)
    ensures Moves(t, t, g)
  {
    hide Sound, Evolves, OnlyItem, Covered;
    StepsReflexive(t, g);
  }

  lemma EmptySums(t: Tables, g: GameId, run: nat)
    requires Sound(t)
    ensures g !in t.items ==> ItemSum(t.sessions, g) == 0
    ensures run !in t.runs ==> RunSum(t.sessions, run) == 0
  {
    forall id | id in t.sessions ensures SessionSound(t, id) {}
    if g !in t.items { assert ItemMinutes(t.sessions, g) == map[]; }
    if run !in t.runs { assert RunMinutes(t.sessions, run) == map[]; }
  }

  lemma InsertItemMoves(t: Tables, g: GameId, row: Row)
    requires Sound(t) && RowGood(row)
    ensures InsertItem(t, g, row).Ok? ==> Moves(t, InsertItem(t, g, row).value, g)
  {
    hide Sound, Evolves, OnlyItem, ItemSum, RunSum, Text.Tidy;
    InsertItemSteps(t, g, row);
    EmptySums(t, g, 0);
  }

  lemma UpdateItemMoves(t: Tables, g: GameId, row: Row)
    requires Sound(t) && RowGood(row)
    requires g in t.items ==> row.rev == t.items[g].rev && t.items[g].minutes <= row.minutes
    ensures Moves(t, UpdateItem(t, g, row), g)
  {
    hide Sound, Evolves, OnlyItem, ItemSum, RunSum, RowGood;
    UpdateItemSteps(t, g, row);
  }

  lemma DeleteItemSums(t: Tables, g: GameId, h: GameId, run: nat)
    requires Sound(t)
    ensures h != g ==> ItemSum(DeleteItem(t, g).sessions, h) == ItemSum(t.sessions, h)
    ensures run in t.runs && t.runs[run].game != g ==> RunSum(DeleteItem(t, g).sessions, run) == RunSum(t.sessions, run)
  {
    hide Sound, ItemSum, RunSum;
    DeletedSessions(t, g);
    hide DeleteItem;
    var ss := DeleteItem(t, g).sessions;
    if h != g {
      ItemSumOf(ss, t.sessions, h);
    }
    if run in t.runs && t.runs[run].game != g {
      forall k | k in t.sessions && t.sessions[k].run == Some(run)
        ensures t.sessions[k].game != g { SessionIsSound(t, k); }
      RunSumOf(ss, t.sessions, run);
    }
  }

  lemma DeletedSessions(t: Tables, g: GameId)
    ensures forall k :: k in DeleteItem(t, g).sessions <==>
                        k in t.sessions && (g in t.items ==> t.sessions[k].game != g)
    ensures forall k | k in DeleteItem(t, g).sessions :: DeleteItem(t, g).sessions[k] == t.sessions[k]
  {
  }

  lemma ItemSumOf(ss: map<nat, Session>, tt: map<nat, Session>, h: GameId)
    requires forall k | k in ss && ss[k].game == h :: k in tt && tt[k] == ss[k]
    requires forall k | k in tt && tt[k].game == h :: k in ss && tt[k] == ss[k]
    ensures ItemSum(ss, h) == ItemSum(tt, h)
  {
    assert ItemMinutes(ss, h) == ItemMinutes(tt, h);
  }

  lemma RunSumOf(ss: map<nat, Session>, tt: map<nat, Session>, run: nat)
    requires forall k | k in ss && ss[k].run == Some(run) :: k in tt && tt[k] == ss[k]
    requires forall k | k in tt && tt[k].run == Some(run) :: k in ss && tt[k] == ss[k]
    ensures RunSum(ss, run) == RunSum(tt, run)
  {
    assert RunMinutes(ss, run) == RunMinutes(tt, run);
  }

  lemma DeleteItemMoves(t: Tables, g: GameId)
    requires Sound(t)
    ensures Moves(t, DeleteItem(t, g), g)
  {
    hide Sound, Evolves, OnlyItem, ItemSum, RunSum;
    DeleteItemSteps(t, g);
    if Covered(t) && g in t.items {
      var d := DeleteItem(t, g);
      forall h | h in d.items ensures ItemSum(d.sessions, h) <= d.items[h].minutes {
        DeleteItemSums(t, g, h, 0);
      }
      forall id | id in d.runs ensures RunSum(d.sessions, id) <= d.runs[id].minutes {
        DeleteItemSums(t, g, g, id);
      }
    }
  }

  lemma InsertRunMoves(t: Tables, id: nat, run: Run)
    requires Sound(t) && 0 <= run.minutes
    requires id in t.runOwner ==> t.runOwner[id] == run.game
    ensures InsertRun(t, id, run).Ok? ==> Moves(t, InsertRun(t, id, run).value, run.game)
  {
    hide Sound, Evolves, OnlyItem, ItemSum, RunSum;
    InsertRunSteps(t, id, run);
    EmptySums(t, run.game, id);
  }

  lemma UpdateRunMoves(t: Tables, id: nat, run: Run)
    requires Sound(t)
    requires id in t.runs ==> run.game == t.runs[id].game && run.minutes == t.runs[id].minutes
    ensures Moves(t, UpdateRun(t, id, run), run.game)
  {
    hide Sound, Evolves, OnlyItem, ItemSum, RunSum;
    if id in t.runs { RunIsSound(t, id); UpdateRunSteps(t, id, run); } else { StepsReflexive(t, run.game); }
  }

  /** The minutes that session statements leave on the item and its runs. */
  lemma InsertSessionMinutes(t: Tables, id: nat, s: Session, now: Instant)
    requires InsertSession(t, id, s, now).Ok?
    ensures var t' := InsertSession(t, id, s, now).value;
            && t'.sessions == t.sessions[id := s]
            && t'.items.Keys == t.items.Keys && t'.runs.Keys == t.runs.Keys
            && t'.items[s.game].minutes == Max(0, t.items[s.game].minutes + s.minutes)
            && (forall g | g in t.items && g != s.game :: t'.items[g] == t.items[g])
            && (forall r | r in t.runs ::
                  t'.runs[r] == t.runs[r].(
                    minutes :=
                      if s.run == Some(r) then Max(0, t.runs[r].minutes + s.minutes) else t.runs[r].minutes))
  {
    hide AddRunMinutes;
    var t1 := PutSession(t, id, s);
    var row := t1.items[s.game];
    var t2 := UpdateItem(t1, s.game, row.(minutes := Max(0, row.minutes + s.minutes), updatedAt := now));
    AddRunMinutesOnly(t2, s.run, s.minutes);
  }

  lemma DeleteSessionMinutes(t: Tables, id: nat)
    requires id in t.sessions && t.sessions[id].game in t.items
    ensures var t' := DeleteSession(t, id);
            var s := t.sessions[id];
            && t'.sessions == t.sessions - {id}
            && t'.items.Keys == t.items.Keys && t'.runs.Keys == t.runs.Keys
            && t'.items[s.game].minutes == Max(0, t.items[s.game].minutes - s.minutes)
            && (forall g | g in t.items && g != s.game :: t'.items[g] == t.items[g])
            && (forall r | r in t.runs ::
                  t'.runs[r] == t.runs[r].(
                    minutes :=
                      if s.run == Some(r) then Max(0, t.runs[r].minutes - s.minutes) else t.runs[r].minutes))
  {
    hide AddItemMinutes, AddRunMinutes;
    var s := t.sessions[id];
    var t1 := AddItemMinutes(DropSession(t, id), s.game, -s.minutes);
    AddItemMinutesOnly(DropSession(t, id), s.game, -s.minutes);
    AddRunMinutesOnly(t1, s.run, -s.minutes);
  }

  lemma UpdateSessionMinutes(t: Tables, id: nat, playedOn: Day, minutes: int, note: string)
    requires id in t.sessions && t.sessions[id].game in t.items
    requires UpdateSession(t, id, playedOn, minutes, note).Ok?
    ensures var t' := UpdateSession(t, id, playedOn, minutes, note).value;
            var s := t.sessions[id];
            && t'.sessions == t.sessions[id := s.(playedOn := playedOn, minutes := minutes, note := note)]
            && t'.items.Keys == t.items.Keys && t'.runs.Keys == t.runs.Keys
            && t'.items[s.game].minutes == Max(0, t.items[s.game].minutes - s.minutes + minutes)
            && (forall g | g in t.items && g != s.game :: t'.items[g] == t.items[g])
            && (forall r | r in t.runs ::
                  t'.runs[r] == t.runs[r].(
                    minutes :=
                      if s.run == Some(r) then Max(0, t.runs[r].minutes - s.minutes) + minutes else t.runs[r].minutes))
  {
    hide AddItemMinutes, AddRunMinutes;
    var s := t.sessions[id];
    var t0 := t.(sessions := t.sessions[id := s.(playedOn := playedOn, minutes := minutes, note := note)]);
    var t1 := AddItemMinutes(t0, s.game, minutes - s.minutes);
    AddItemMinutesOnly(t0, s.game, minutes - s.minutes);
    AddRunMinutesOnly(t1, s.run, -s.minutes);
  }

  lemma InsertSessionMoves(t: Tables, id: nat, s: Session, now: Instant)
    requires Sound(t)
    requires id in t.sessOwner ==> t.sessOwner[id] == s.game
    requires s.run.Some? && s.run.value in t.runs ==> t.runs[s.run.value].game == s.game
    ensures InsertSession(t, id, s, now).Ok? ==> Moves(t, InsertSession(t, id, s, now).value, s.game)
  {
    hide Sound, Evolves, OnlyItem;
    InsertSessionSteps(t, id, s, now);
    if InsertSession(t, id, s, now).Ok? && Covered(t) {
      InsertSessionMinutes(t, id, s, now);
      var t' := InsertSession(t, id, s, now).value;
      hide InsertSession;
      forall g | g in t'.items ensures ItemSum(t'.sessions, g) <= t'.items[g].minutes {
        SumsWith(t.sessions, id, s, g, 0);
      }
      forall r | r in t'.runs ensures RunSum(t'.sessions, r) <= t'.runs[r].minutes {
        SumsWith(t.sessions, id, s, s.game, r);
      }
    }
  }

  lemma DeleteSessionMoves(t: Tables, id: nat)
    requires Sound(t) && id in t.sessions
    ensures Moves(t, DeleteSession(t, id), t.sessions[id].game)
  {
    hide Sound, Evolves, OnlyItem;
    SessionIsSound(t, id);
    DeleteSessionSteps(t, id);
    if Covered(t) {
      DeleteSessionMinutes(t, id);
      var t' := DeleteSession(t, id);
      hide DeleteSession;
      forall g | g in t'.items ensures ItemSum(t'.sessions, g) <= t'.items[g].minutes {
        SumsWithout(t.sessions, id, g, 0);
      }
      forall r | r in t'.runs ensures RunSum(t'.sessions, r) <= t'.runs[r].minutes {
        SumsWithout(t.sessions, id, 0, r);
      }
    }
  }

  lemma UpdateSessionMoves(t: Tables, id: nat, playedOn: Day, minutes: int, note: string)
    requires Sound(t) && id in t.sessions
    ensures UpdateSession(t, id, playedOn, minutes, note).Ok? ==>
              Moves(t, UpdateSession(t, id, playedOn, minutes, note).value, t.sessions[id].game)
  {
    hide Sound, Evolves, OnlyItem;
    SessionIsSound(t, id);
    UpdateSessionSteps(t, id, playedOn, minutes, note);
    if UpdateSession(t, id, playedOn, minutes, note).Ok? && Covered(t) {
      UpdateSessionMinutes(t, id, playedOn, minutes, note);
      var t' := UpdateSession(t, id, playedOn, minutes, note).value;
      var s := t'.sessions[id];
      hide UpdateSession;
      forall g | g in t'.items ensures ItemSum(t'.sessions, g) <= t'.items[g].minutes {
        SumsReplaced(t.sessions, id, s, g, 0);
      }
      forall r | r in t'.runs ensures RunSum(t'.sessions, r) <= t'.runs[r].minutes {
        SumsReplaced(t.sessions, id, s, 0, r);
      }
    }
  }

  lemma {:induction false} DeleteSessionsCovered(t: Tables, ids: seq<nat>)
    requires Sound(t) && Covered(t)
    ensures Covered(DeleteSessions(t, ids))
    decreases ids
  {
    hide Sound, Evolves, OnlyItem, Covered;
    if ids != [] {
      if ids[0] in t.sessions { DeleteSessionMoves(t, ids[0]); }
      DeleteSessionsCovered(DeleteSession(t, ids[0]), ids[1..]);
    }
  }

  /** Deleting a run keeps every invariant, in whatever order its sessions go. */
  lemma CascadeMoves(t: Tables, id: nat, ids: seq<nat>)
    requires Sound(t) && id in t.runs && Lists(t, id, ids)
    ensures Moves(t, DeleteSessions(WithoutRun(t, id), ids), t.runs[id].game)
  {
    hide Sound, Evolves, OnlyItem, Covered, DeleteSessions;
    CascadeSteps(t, id, ids);
    if Covered(t) { DeleteSessionsCovered(t, ids); }
    ListedSessions(t, id, ids);
    CascadeCommutes(t, id, ids);
    DropRunCovered(DeleteSessions(t, ids), id);
  }

  lemma DropRunCovered(t: Tables, id: nat)
    ensures Covered(t) ==> Covered(WithoutRun(t, id))
  {
    hide ItemSum, RunSum;
  }

  lemma DeleteRunMoves(t: Tables, id: nat)
    requires Sound(t) && id in t.runs
    ensures Moves(t, DeleteRun(t, id), t.runs[id].game)
  {
    hide Sound, Moves, DeleteSessions, Ascending, Lists;
    AscendingIsList(t, id);
    CascadeMoves(t, id, Ascending(SessionsOfRun(t, id)));
  }

  lemma PutGameCovered(t: Tables, g: GameId, game: Game)
    requires Sound(t) && Covered(t)
    ensures Covered(PutGame(t, g, game))
  {
    PutGameIs(t, g, game);
    hide PutGame, Sound, ItemSum, RunSum;
  }

  // ---- Equality until a clamp fires ---------------------------------------

  ghost predicate ItemExact(t: Tables, g: GameId)
    requires g in t.items
  {
    t.items[g].minutes == ItemSum(t.sessions, g)
  }

  ghost predicate RunExact(t: Tables, id: nat)
    requires id in t.runs
  {
    t.runs[id].minutes == RunSum(t.sessions, id)
  }

  /** The item's total and those of its runs are the sums of their sessions. */
  ghost predicate TotalsAreSums(t: Tables, g: GameId)
    requires g in t.items
  {
    ItemExact(t, g) && forall id | id in t.runs && t.runs[id].game == g :: RunExact(t, id)
  }

  /** A total that equals its sessions keeps doing so exactly when MAX(0, ...) does not clamp. */
  lemma InsertKeepsExact(t: Tables, id: nat, s: Session, now: Instant)
    requires InsertSession(t, id, s, now).Ok? && ItemExact(t, s.game)
    ensures s.game in InsertSession(t, id, s, now).value.items
    ensures ItemExact(InsertSession(t, id, s, now).value, s.game) <==> 0 <= t.items[s.game].minutes + s.minutes
  {
    InsertSessionMinutes(t, id, s, now);
    SumsWith(t.sessions, id, s, s.game, 0);
  }

  lemma DeleteKeepsExact(t: Tables, id: nat)
    requires id in t.sessions && t.sessions[id].game in t.items && ItemExact(t, t.sessions[id].game)
    ensures t.sessions[id].game in DeleteSession(t, id).items
    ensures ItemExact(DeleteSession(t, id), t.sessions[id].game) <==>
            t.sessions[id].minutes <= t.items[t.sessions[id].game].minutes
  {
    DeleteSessionMinutes(t, id);
    SumsWithout(t.sessions, id, t.sessions[id].game, 0);
  }

  lemma UpdateKeepsExact(t: Tables, id: nat, playedOn: Day, minutes: int, note: string)
    requires id in t.sessions && t.sessions[id].game in t.items && ItemExact(t, t.sessions[id].game)
    requires UpdateSession(t, id, playedOn, minutes, note).Ok?
    ensures t.sessions[id].game in UpdateSession(t, id, playedOn, minutes, note).value.items
    ensures ItemExact(UpdateSession(t, id, playedOn, minutes, note).value, t.sessions[id].game) <==>
            t.sessions[id].minutes <= t.items[t.sessions[id].game].minutes + minutes
  {
    UpdateSessionMinutes(t, id, playedOn, minutes, note);
    SumsReplaced(t.sessions, id, UpdateSession(t, id, playedOn, minutes, note).value.sessions[id],
                 t.sessions[id].game, 0);
  }

  lemma InsertKeepsRunExact(t: Tables, id: nat, s: Session, now: Instant)
    requires InsertSession(t, id, s, now).Ok? && s.run.Some? && RunExact(t, s.run.value)
    ensures s.run.value in InsertSession(t, id, s, now).value.runs
    ensures RunExact(InsertSession(t, id, s, now).value, s.run.value) <==> 0 <= t.runs[s.run.value].minutes + s.minutes
  {
    InsertSessionMinutes(t, id, s, now);
    SumsWith(t.sessions, id, s, s.game, s.run.value);
  }

  lemma DeleteKeepsRunExact(t: Tables, id: nat)
    requires id in t.sessions && t.sessions[id].game in t.items
    requires t.sessions[id].run.Some? && t.sessions[id].run.value in t.runs && RunExact(t, t.sessions[id].run.value)
    ensures t.sessions[id].run.value in DeleteSession(t, id).runs
    ensures RunExact(DeleteSession(t, id), t.sessions[id].run.value) <==>
            t.sessions[id].minutes <= t.runs[t.sessions[id].run.value].minutes
  {
    DeleteSessionMinutes(t, id);
    SumsWithout(t.sessions, id, t.sessions[id].game, t.sessions[id].run.value);
  }

  /** The update takes the old minutes off the run with a clamp and adds the new ones without. */
  lemma UpdateKeepsRunExact(t: Tables, id: nat, playedOn: Day, minutes: int, note: string)
    requires id in t.sessions && t.sessions[id].game in t.items && UpdateSession(t, id, playedOn, minutes, note).Ok?
    requires t.sessions[id].run.Some? && t.sessions[id].run.value in t.runs && RunExact(t, t.sessions[id].run.value)
    ensures var run := t.sessions[id].run.value;
            var t' := UpdateSession(t, id, playedOn, minutes, note).value;
            run in t'.runs && (RunExact(t', run) <==> t.sessions[id].minutes <= t.runs[run].minutes)
  {
    UpdateSessionMinutes(t, id, playedOn, minutes, note);
    SumsReplaced(t.sessions, id, UpdateSession(t, id, playedOn, minutes, note).value.sessions[id],
                 t.sessions[id].game, t.sessions[id].run.value);
  }

  // ---- One game's totals, through one statement -----------------------------

  function RunTotal(t: Tables, run: Option<nat>): int {
    if run.Some? && run.value in t.runs then t.runs[run.value].minutes else 0
  }

  predicate OnRun(t: Tables, run: Option<nat>) {
    run.Some? && run.value in t.runs
  }

  /** Logging these minutes would take the item's total, or its run's, below zero. */
  predicate InsertClamps(t: Tables, s: Session) {
    s.game in t.items && (t.items[s.game].minutes + s.minutes < 0
                          || (OnRun(t, s.run) && RunTotal(t, s.run) + s.minutes < 0))
  }

  predicate DeleteClamps(t: Tables, id: nat) {
    id in t.sessions && t.sessions[id].game in t.items &&
    var s := t.sessions[id];
    t.items[s.game].minutes < s.minutes || (OnRun(t, s.run) && RunTotal(t, s.run) < s.minutes)
  }

  predicate UpdateClamps(t: Tables, id: nat, minutes: int) {
    id in t.sessions && t.sessions[id].game in t.items &&
    var s := t.sessions[id];
    t.items[s.game].minutes - s.minutes + minutes < 0 || (OnRun(t, s.run) && RunTotal(t, s.run) < s.minutes)
  }

  /** Runs other than the session's keep their sums. */
  lemma OtherRunsExact(t: Tables, t1: Tables, run: Option<nat>, id: nat)
    requires id in t.runs && run != Some(id) && t1.runs.Keys == t.runs.Keys && t1.runs[id].minutes == t.runs[id].minutes
    requires forall k | k in t.sessions && t.sessions[k].run == Some(id) ::
               k in t1.sessions && t1.sessions[k] == t.sessions[k]
    requires forall k | k in t1.sessions && t1.sessions[k].run == Some(id) ::
               k in t.sessions && t1.sessions[k] == t.sessions[k]
    ensures RunExact(t1, id) <==> RunExact(t, id)
  {
    RunSumOf(t1.sessions, t.sessions, id);
  }

  lemma InsertTotals(t: Tables, id: nat, s: Session, now: Instant)
    requires InsertSession(t, id, s, now).Ok? && TotalsAreSums(t, s.game)
    requires s.run.Some? ==> t.runs[s.run.value].game == s.game
    ensures var t' := InsertSession(t, id, s, now).value;
            s.game in t'.items && (TotalsAreSums(t', s.game) <==> !InsertClamps(t, s))
  {
    var t' := InsertSession(t, id, s, now).value;
    InsertSessionMinutes(t, id, s, now);
    InsertKeepsExact(t, id, s, now);
    if s.run.Some? { InsertKeepsRunExact(t, id, s, now); }
    hide InsertSession, ItemExact, RunExact;
    forall k | k in t.runs && s.run != Some(k) ensures RunExact(t', k) <==> RunExact(t, k) {
      OtherRunsExact(t, t', s.run, k);
    }
  }

  lemma DeleteTotals(t: Tables, id: nat)
    requires id in t.sessions && t.sessions[id].game in t.items && TotalsAreSums(t, t.sessions[id].game)
    requires OnRun(t, t.sessions[id].run) ==> t.runs[t.sessions[id].run.value].game == t.sessions[id].game
    ensures var g := t.sessions[id].game;
            g in DeleteSession(t, id).items && (TotalsAreSums(DeleteSession(t, id), g) <==> !DeleteClamps(t, id))
  {
    var t', run := DeleteSession(t, id), t.sessions[id].run;
    DeleteSessionMinutes(t, id);
    DeleteKeepsExact(t, id);
    if OnRun(t, run) { DeleteKeepsRunExact(t, id); }
    hide DeleteSession, ItemExact, RunExact;
    forall k | k in t.runs && run != Some(k) ensures RunExact(t', k) <==> RunExact(t, k) {
      OtherRunsExact(t, t', run, k);
    }
  }

  lemma UpdateTotals(t: Tables, id: nat, playedOn: Day, minutes: int, note: string)
    requires id in t.sessions && t.sessions[id].game in t.items && TotalsAreSums(t, t.sessions[id].game)
    requires OnRun(t, t.sessions[id].run) ==> t.runs[t.sessions[id].run.value].game == t.sessions[id].game
    requires UpdateSession(t, id, playedOn, minutes, note).Ok?
    ensures var g := t.sessions[id].game;
            var t' := UpdateSession(t, id, playedOn, minutes, note).value;
            g in t'.items && (TotalsAreSums(t', g) <==> !UpdateClamps(t, id, minutes))
  {
    var t', run := UpdateSession(t, id, playedOn, minutes, note).value, t.sessions[id].run;
    UpdateSessionMinutes(t, id, playedOn, minutes, note);
    UpdateKeepsExact(t, id, playedOn, minutes, note);
    if OnRun(t, run) { UpdateKeepsRunExact(t, id, playedOn, minutes, note); }
    hide UpdateSession, ItemExact, RunExact;
    forall k | k in t.runs && run != Some(k) ensures RunExact(t', k) <==> RunExact(t, k) {
      OtherRunsExact(t, t', run, k);
    }
  }

  /** What a statement about one game does not touch keeps its totals exact, or not. */
  lemma OthersTotals(a: Tables, b: Tables, g: GameId, h: GameId)
    requires Sound(a) && Sound(b) && OnlyItem(a, b, g) && h != g && h in a.items
    ensures h in b.items && (TotalsAreSums(a, h) <==> TotalsAreSums(b, h))
  {
    hide Sound;
    ItemSumOf(b.sessions, a.sessions, h);
    forall id | id in a.runs && a.runs[id].game == h ensures id in b.runs && (RunExact(a, id) <==> RunExact(b, id)) {
      forall k | k in a.sessions && a.sessions[k].run == Some(id)
        ensures a.sessions[k].game == h { SessionIsSound(a, k); }
      forall k | k in b.sessions && b.sessions[k].run == Some(id)
        ensures b.sessions[k].game == h { SessionIsSound(b, k); }
      RunSumOf(b.sessions, a.sessions, id);
    }
    hide RunExact, ItemSum;
  }
}
