// Every SQL statement of the library, with the bodies of the triggers it
// fires (internal/db/migrate.go, versions 18 and 20) run in place.
module LibraryTables {
  import opened Prelude
  import opened LibraryTypes
  import Text

  function RevOf(t: Tables): nat {
    if t.rev.Some? then t.rev.value else 0
  }

  /** The stamping half of library_rev_ai and library_rev_au: bump the counter, mark the row. */
  function Stamp(t: Tables, g: GameId): Tables
    requires g in t.items
  {
    var n := RevOf(t) + 1;
    t.(rev := Some(n), items := t.items[g := t.items[g].(rev := n)])
  }

  /** INSERT INTO library_items, then library_rev_ai. */
  function InsertItem(t: Tables, g: GameId, row: Row): Result<Tables, Error> {
    if g in t.items || g !in t.games then Err(Constraint)
    else
      var stamped := Stamp(t.(items := t.items[g := row.(rev := 0)]), g);
      Ok(stamped.(tombs := stamped.tombs - {g}))
  }

  /** UPDATE library_items, then library_rev_au unless the statement set rev itself. */
  function UpdateItem(t: Tables, g: GameId, row: Row): Tables {
    if g !in t.items then t
    else
      var changed := t.(items := t.items[g := row]);
      if row.rev == t.items[g].rev then Stamp(changed, g) else changed
  }

  /** DELETE FROM library_items: the journal goes by cascade, then library_rev_ad leaves a tombstone. */
  function DeleteItem(t: Tables, g: GameId): Tables {
    if g !in t.items then t
    else
      var gone := t.(
                  items := t.items - {g},
                  runs := map id | id in t.runs && t.runs[id].game != g :: t.runs[id],
                  sessions := map id | id in t.sessions && t.sessions[id].game != g :: t.sessions[id]);
      if t.rev.None? then gone.(tombs := t.tombs - {g})
      else gone.(rev := Some(RevOf(t) + 1), tombs := t.tombs[g := RevOf(t) + 1])
  }

  /** The columns that games_library_rev_au watches: all but the platforms. */
  function Watched(game: Game): Game {
    game.(platforms := [])
  }

  /** UPDATE games, then games_library_rev_au when a watched column changed. */
  function PutGame(t: Tables, g: GameId, game: Game): Tables {
    var put := t.(games := t.games[g := game]);
    if g in t.games && g in t.items && Watched(t.games[g]) != Watched(game) then UpdateItem(put, g, t.items[g]) else put
  }

  /** INSERT INTO playthroughs, with the ID AUTOINCREMENT gives or an explicit one. */
  function InsertRun(t: Tables, id: nat, run: Run): Result<Tables, Error> {
    if id in t.runs || run.game !in t.items then Err(Constraint)
    else Ok(t.(
            runs := t.runs[id := run],
            runSeq := if t.runSeq < id then id else t.runSeq,
            runOwner := t.runOwner[id := run.game]))
  }

  /** UPDATE playthroughs WHERE id = ?. */
  function UpdateRun(t: Tables, id: nat, run: Run): Tables {
    if id in t.runs then t.(runs := t.runs[id := run]) else t
  }

  /** The CHECK on play_sessions.minutes. */
  predicate SessionCheck(s: Session) {
    && s.minutes != 0
    && (s.minutes > 0 || s.source == Adjust)
    && (s.minutes <= MAX_SESSION_MINUTES || s.source in {Legacy, Adjust, Steam, Import})
  }

  /** UPDATE playthroughs SET minutes = MAX(0, minutes + delta) WHERE id = run. */
  function AddRunMinutes(t: Tables, run: Option<nat>, delta: int): Tables {
    if run.Some? && run.value in t.runs then
      var r := t.runs[run.value]; UpdateRun(t, run.value, r.(minutes := Max(0, r.minutes + delta)))
    else t
  }

  /** The session row itself, before any trigger. */
  function PutSession(t: Tables, id: nat, s: Session): Tables {
    t.(sessions := t.sessions[id := s],
       sessSeq := if t.sessSeq < id then id else t.sessSeq,
       sessOwner := t.sessOwner[id := s.game])
  }

  /** INSERT INTO play_sessions, then play_sessions_ai. */
  function InsertSession(t: Tables, id: nat, s: Session, now: Instant): Result<Tables, Error> {
    if id in t.sessions || s.game !in t.items || (s.run.Some? && s.run.value !in t.runs) || !SessionCheck(s) then
      Err(Constraint)
    else
      var t1 := PutSession(t, id, s);
      var row := t1.items[s.game];
      var t2 := UpdateItem(t1, s.game, row.(minutes := Max(0, row.minutes + s.minutes), updatedAt := now));
      Ok(AddRunMinutes(t2, s.run, s.minutes))
  }

  /** UPDATE library_items SET playtime_minutes = MAX(0, playtime_minutes + delta). */
  function AddItemMinutes(t: Tables, g: GameId, delta: int): Tables {
    if g in t.items then
      var row := t.items[g]; UpdateItem(t, g, row.(minutes := Max(0, row.minutes + delta)))
    else t
  }

  function DropSession(t: Tables, id: nat): Tables {
    t.(sessions := t.sessions - {id})
  }

  /** DELETE FROM play_sessions WHERE id = ?, then play_sessions_ad. */
  function DeleteSession(t: Tables, id: nat): Tables {
    if id !in t.sessions then t
    else
      var s := t.sessions[id];
      var t1 := AddItemMinutes(DropSession(t, id), s.game, -s.minutes);
      AddRunMinutes(t1, s.run, -s.minutes)
  }

  /**
   * UPDATE play_sessions SET played_on, minutes, note WHERE id = ?, then
   * play_sessions_au. Taking the old minutes off the run is clamped at zero,
   * adding the new ones is not: the run's CHECK may refuse the statement.
   */
  function UpdateSession(t: Tables, id: nat, playedOn: Day, minutes: int, note: string): Result<Tables, Error> {
    if id !in t.sessions then Ok(t)
    else
      var was := t.sessions[id];
      var s := was.(playedOn := playedOn, minutes := minutes, note := note);
      if !SessionCheck(s) then Err(Constraint)
      else
        var t1 := AddItemMinutes(t.(sessions := t.sessions[id := s]), s.game, s.minutes - was.minutes);
        var t2 := AddRunMinutes(t1, s.run, -was.minutes);
        if s.run.Some? && s.run.value in t2.runs then
          var r := t2.runs[s.run.value];
          if r.minutes + s.minutes < 0 then Err(Constraint)
          else Ok(UpdateRun(t2, s.run.value, r.(minutes := r.minutes + s.minutes)))
        else Ok(t2)
  }

  function SessionsOfRun(t: Tables, id: nat): set<nat> {
    set s | s in t.sessions && t.sessions[s].run == Some(id)
  }

  /** DELETE FROM playthroughs WHERE id = ?: its sessions go by cascade, one delete each. */
  function DeleteRun(t: Tables, id: nat): Tables {
    if id !in t.runs then t
    else DeleteSessions(t.(runs := t.runs - {id}), Ascending(SessionsOfRun(t, id)))
  }

  function DeleteSessions(t: Tables, ids: seq<nat>): Tables
    decreases ids
  {
    if ids == [] then t else DeleteSessions(DeleteSession(t, ids[0]), ids[1..])
  }

  // ---- What every statement keeps -----------------------------------------

  /** The foreign keys, CHECKs and counters, and the shape of the delta log. */
  ghost predicate Sound(t: Tables) {
    && (forall g | g in t.items :: g in t.games && RowSound(t, t.items[g]))
    && (forall id | id in t.runs :: RunSound(t, id))
    && (forall id | id in t.sessions :: SessionSound(t, id))
    && (forall g | g in t.tombs :: g !in t.items && t.tombs[g] <= RevOf(t))
    && (forall id | id in t.runOwner :: id <= t.runSeq)
    && (forall id | id in t.sessOwner :: id <= t.sessSeq)
  }

  ghost predicate RowSound(t: Tables, row: Row) {
    RowGood(row) && t.rev.Some? && 1 <= row.rev <= RevOf(t)
  }

  /** The CHECKs of library_items, and the tag and platform lists validateState leaves. */
  ghost predicate RowGood(row: Row) {
    0 <= row.minutes && 0 <= row.rating <= 100 && Text.Tidy(row.tags) && Text.Tidy(row.owned)
  }

  ghost predicate RunSound(t: Tables, id: nat)
    requires id in t.runs
  {
    var r := t.runs[id];
    r.game in t.items && 0 <= r.minutes && id in t.runOwner && t.runOwner[id] == r.game
  }

  ghost predicate SessionSound(t: Tables, id: nat)
    requires id in t.sessions
  {
    var s := t.sessions[id];
    && s.game in t.items && SessionCheck(s)
    && id in t.sessOwner && t.sessOwner[id] == s.game
    && (s.run.Some? ==> s.run.value in t.runs && t.runs[s.run.value].game == s.game)
  }

  /**
   * b may follow a: revisions only grow, journal IDs keep their game, and the
   * revisions and tombstones of b tell exactly what has changed since a.
   */
  ghost predicate Evolves(a: Tables, b: Tables) {
    && RevOf(a) <= RevOf(b)
    && (a.rev.Some? ==> b.rev.Some?)
    && a.games.Keys <= b.games.Keys
    && (forall id | id in a.runOwner :: id in b.runOwner && b.runOwner[id] == a.runOwner[id])
    && (forall id | id in a.sessOwner :: id in b.sessOwner && b.sessOwner[id] == a.sessOwner[id])
    && a.runSeq <= b.runSeq && a.sessSeq <= b.sessSeq
    && (forall g | g in b.items && b.items[g].rev <= RevOf(a) :: KeptItem(a, b, g))
    && (forall g | g !in b.items && (g in a.items || g in a.tombs) :: Buried(a, b, g))
  }

  ghost predicate KeptItem(a: Tables, b: Tables, g: GameId)
    requires g in b.items
  {
    g in a.items && a.items[g] == b.items[g]
    && (g in a.games ==> g in b.games && Watched(a.games[g]) == Watched(b.games[g]))
  }

  ghost predicate Buried(a: Tables, b: Tables, g: GameId) {
    g in b.tombs
    && (b.tombs[g] > RevOf(a) || (g !in a.items && g in a.tombs && a.tombs[g] == b.tombs[g]))
  }

  /** Nothing outside game g's row and journal differs. */
  ghost predicate OnlyItem(a: Tables, b: Tables, g: GameId) {
    && a.games == b.games
    && (forall h | h != g :: (h in a.items <==> h in b.items) && (h in a.items ==> a.items[h] == b.items[h]))
    && (forall h | h != g :: (h in a.tombs <==> h in b.tombs) && (h in a.tombs ==> a.tombs[h] == b.tombs[h]))
    && (forall id | id in a.runs && a.runs[id].game != g :: id in b.runs && b.runs[id] == a.runs[id])
    && (forall id | id in b.runs && b.runs[id].game != g :: id in a.runs && b.runs[id] == a.runs[id])
    && (forall id | id in a.sessions && a.sessions[id].game != g ::
          id in b.sessions && b.sessions[id] == a.sessions[id])
    && (forall id | id in b.sessions && b.sessions[id].game != g ::
          id in a.sessions && b.sessions[id] == a.sessions[id])
  }

  /** What every statement about game g does: a sound state follows, changed only there. */
  ghost predicate Steps(a: Tables, b: Tables, g: GameId) {
    Sound(b) && Evolves(a, b) && OnlyItem(a, b, g)
  }

  lemma EvolvesTransitive(a: Tables, b: Tables, c: Tables)
    requires Evolves(a, b) && Evolves(b, c)
    ensures Evolves(a, c)
  {
    forall g | g in c.items && c.items[g].rev <= RevOf(a)
      ensures KeptItem(a, c, g)
    {
      assert KeptItem(b, c, g);
      assert KeptItem(a, b, g);
    }
    forall g | g !in c.items && (g in a.items || g in a.tombs)
      ensures Buried(a, c, g)
    {
      if g in b.items {
        assert Buried(b, c, g);
      } else {
        assert Buried(a, b, g);
        assert Buried(b, c, g);
      }
    }
  }

  lemma StepsTransitive(a: Tables, b: Tables, c: Tables, g: GameId)
    requires Steps(a, b, g) && Steps(b, c, g)
    ensures Steps(a, c, g)
  {
    EvolvesTransitive(a, b, c);
  }

  /** a and b differ in the journal of game g at most. */
  ghost predicate OnlyJournal(a: Tables, b: Tables, g: GameId) {
    && b == a.(runs := b.runs, sessions := b.sessions, runSeq := b.runSeq, sessSeq := b.sessSeq,
               runOwner := b.runOwner, sessOwner := b.sessOwner)
    && a.runSeq <= b.runSeq && a.sessSeq <= b.sessSeq
    && (forall id | id in a.runOwner :: id in b.runOwner && b.runOwner[id] == a.runOwner[id])
    && (forall id | id in a.sessOwner :: id in b.sessOwner && b.sessOwner[id] == a.sessOwner[id])
    && (forall id | id in a.runs && a.runs[id].game != g :: id in b.runs && b.runs[id] == a.runs[id])
    && (forall id | id in b.runs && b.runs[id].game != g :: id in a.runs && b.runs[id] == a.runs[id])
    && (forall id | id in a.sessions && a.sessions[id].game != g ::
          id in b.sessions && b.sessions[id] == a.sessions[id])
    && (forall id | id in b.sessions && b.sessions[id].game != g ::
          id in a.sessions && b.sessions[id] == a.sessions[id])
  }

  lemma JournalSteps(a: Tables, b: Tables, g: GameId)
    requires Sound(a) && Sound(b) && OnlyJournal(a, b, g)
    ensures Steps(a, b, g)
  {
    hide RowGood, RunSound, SessionSound;
  }

  /** A change to the journal alone keeps the tables sound when it keeps every run and session so. */
  lemma JournalSound(t: Tables, d: Tables)
    requires Sound(t) && d == t.(runs := d.runs, sessions := d.sessions, runSeq := d.runSeq, sessSeq := d.sessSeq,
                                 runOwner := d.runOwner, sessOwner := d.sessOwner)
    requires forall k | k in d.runs :: RunSound(d, k)
    requires forall k | k in d.sessions :: SessionSound(d, k)
    requires forall id | id in d.runOwner :: id <= d.runSeq
    requires forall id | id in d.sessOwner :: id <= d.sessSeq
    ensures Sound(d)
  {
    hide RowGood, RunSound, SessionSound;
  }

  lemma RunIsSound(t: Tables, id: nat)
    requires Sound(t) && id in t.runs
    ensures RunSound(t, id) && id <= t.runSeq
  {
  }

  lemma ItemIsSound(t: Tables, g: GameId)
    requires Sound(t) && g in t.items
    ensures RowSound(t, t.items[g]) && g in t.games
  {
  }

  lemma SessionIsSound(t: Tables, id: nat)
    requires Sound(t) && id in t.sessions
    ensures SessionSound(t, id) && id <= t.sessSeq
  {
  }

  lemma AddItemMinutesKeepsJournal(t: Tables, g: GameId, delta: int)
    ensures AddItemMinutes(t, g, delta).runs == t.runs
    ensures AddItemMinutes(t, g, delta).sessions == t.sessions
  {
  }

  lemma StepsReflexive(t: Tables, g: GameId)
    requires Sound(t)
    ensures Steps(t, t, g)
  {
  }

  lemma InsertItemSteps(t: Tables, g: GameId, row: Row)
    requires Sound(t) && RowGood(row)
    ensures InsertItem(t, g, row).Ok? ==> Steps(t, InsertItem(t, g, row).value, g)
  {
    if InsertItem(t, g, row).Ok? {
      InsertItemSound(t, g, row);
      InsertItemEvolves(t, g, row);
      InsertItemOnly(t, g, row);
      hide Sound, RowGood, Evolves, OnlyItem;
    }
  }

  lemma InsertItemEvolves(t: Tables, g: GameId, row: Row)
    requires Sound(t) && InsertItem(t, g, row).Ok?
    ensures Evolves(t, InsertItem(t, g, row).value)
  {
    hide RowGood, RunSound, SessionSound;
  }

  lemma InsertItemOnly(t: Tables, g: GameId, row: Row)
    requires InsertItem(t, g, row).Ok?
    ensures OnlyItem(t, InsertItem(t, g, row).value, g)
  {
  }

  lemma InsertItemSound(t: Tables, g: GameId, row: Row)
    requires Sound(t) && RowGood(row) && InsertItem(t, g, row).Ok?
    ensures Sound(InsertItem(t, g, row).value)
  {
    hide Text.Tidy;
    var d := InsertItem(t, g, row).value;
    forall id | id in d.runs ensures RunSound(d, id) { assert RunSound(t, id); }
    forall id | id in d.sessions ensures SessionSound(d, id) { assert SessionSound(t, id); }
  }

  lemma UpdateItemSteps(t: Tables, g: GameId, row: Row)
    requires Sound(t) && RowGood(row)
    requires g in t.items ==> row.rev == t.items[g].rev
    ensures Steps(t, UpdateItem(t, g, row), g)
    ensures var u := UpdateItem(t, g, row);
            g in t.items ==> u.items == t.items[g := row.(rev := RevOf(t) + 1)] && RevOf(u) == RevOf(t) + 1
  {
    hide Sound, Evolves, RowGood;
    UpdateItemSound(t, g, row);
    UpdateItemEvolves(t, g, row);
    UpdateItemOnly(t, g, row);
    hide OnlyItem;
  }

  lemma UpdateItemOnly(t: Tables, g: GameId, row: Row)
    ensures OnlyItem(t, UpdateItem(t, g, row), g)
  {
    var u := UpdateItem(t, g, row);
    assert u == t.(items := u.items, rev := u.rev);
    if g in t.items { assert u.items == t.items[g := u.items[g]]; } else { assert u == t; }
    hide UpdateItem;
  }

  lemma UpdateItemSound(t: Tables, g: GameId, row: Row)
    requires Sound(t) && RowGood(row)
    requires g in t.items ==> row.rev == t.items[g].rev
    ensures Sound(UpdateItem(t, g, row))
  {
    var u := UpdateItem(t, g, row);
    forall id | id in u.runs ensures RunSound(u, id) { assert RunSound(t, id); }
    forall id | id in u.sessions ensures SessionSound(u, id) { assert SessionSound(t, id); }
    hide RowGood, RunSound, SessionSound;
  }

  lemma UpdateItemEvolves(t: Tables, g: GameId, row: Row)
    requires Sound(t)
    requires g in t.items ==> row.rev == t.items[g].rev
    ensures Evolves(t, UpdateItem(t, g, row))
  {
    hide RowGood, RunSound, SessionSound;
  }

  lemma DeleteItemSteps(t: Tables, g: GameId)
    requires Sound(t)
    ensures Steps(t, DeleteItem(t, g), g)
  {
    DeleteItemSound(t, g);
    DeleteItemEvolves(t, g);
  }

  lemma DeleteItemSound(t: Tables, g: GameId)
    requires Sound(t)
    ensures Sound(DeleteItem(t, g))
  {
    var d := DeleteItem(t, g);
    forall id | id in d.runs ensures RunSound(d, id) { assert RunSound(t, id); }
    forall id | id in d.sessions ensures SessionSound(d, id) { assert SessionSound(t, id); }
  }

  lemma DeleteItemEvolves(t: Tables, g: GameId)
    requires Sound(t)
    ensures Evolves(t, DeleteItem(t, g)) && OnlyItem(t, DeleteItem(t, g), g)
  {
    hide RowGood, RunSound, SessionSound;
    DeleteItemOnly(t, g);
    hide OnlyItem;
  }

  lemma DeleteItemOnly(t: Tables, g: GameId)
    ensures OnlyItem(t, DeleteItem(t, g), g)
  {
    DeleteItemLeaves(t, g);
    hide DeleteItem;
  }

  /** What a deletion leaves, map by map. */
  lemma DeleteItemLeaves(t: Tables, g: GameId)
    ensures var d := DeleteItem(t, g);
            && d.games == t.games && d.items == t.items - {g}
            && (forall h | h != g :: (h in d.tombs <==> h in t.tombs) && (h in t.tombs ==> d.tombs[h] == t.tombs[h]))
            && (forall id | id in t.runs && t.runs[id].game != g :: id in d.runs && d.runs[id] == t.runs[id])
            && (forall id | id in d.runs :: id in t.runs && d.runs[id] == t.runs[id])
            && (forall id | id in t.sessions && t.sessions[id].game != g ::
                  id in d.sessions && d.sessions[id] == t.sessions[id])
            && (forall id | id in d.sessions :: id in t.sessions && d.sessions[id] == t.sessions[id])
  {
    DeleteItemRuns(t, g);
    DeleteItemSessions(t, g);
    DeleteItemRows(t, g);
    hide DeleteItem;
  }

  lemma DeleteItemRuns(t: Tables, g: GameId)
    ensures var d := DeleteItem(t, g);
            && (forall id | id in t.runs && t.runs[id].game != g :: id in d.runs && d.runs[id] == t.runs[id])
            && (forall id | id in d.runs :: id in t.runs && d.runs[id] == t.runs[id])
  {
  }

  lemma DeleteItemSessions(t: Tables, g: GameId)
    ensures var d := DeleteItem(t, g);
            && (forall id | id in t.sessions && t.sessions[id].game != g ::
                  id in d.sessions && d.sessions[id] == t.sessions[id])
            && (forall id | id in d.sessions :: id in t.sessions && d.sessions[id] == t.sessions[id])
  {
  }

  lemma DeleteItemRows(t: Tables, g: GameId)
    ensures var d := DeleteItem(t, g);
            && d.games == t.games && d.items == t.items - {g}
            && (forall h | h != g :: (h in d.tombs <==> h in t.tombs) && (h in t.tombs ==> d.tombs[h] == t.tombs[h]))
  {
    if g !in t.items {
      assert t.items - {g} == t.items;
    }
  }

  lemma InsertRunSound(t: Tables, id: nat, run: Run)
    requires Sound(t) && 0 <= run.minutes && InsertRun(t, id, run).Ok?
    requires id in t.runOwner ==> t.runOwner[id] == run.game
    ensures Sound(InsertRun(t, id, run).value)
  {
    var b := InsertRun(t, id, run).value;
    forall k | k in b.runs ensures RunSound(b, k) { if k != id { RunIsSound(t, k); } }
    forall k | k in b.sessions ensures SessionSound(b, k) { SessionIsSound(t, k); }
    JournalSound(t, b);
  }

  lemma InsertRunSteps(t: Tables, id: nat, run: Run)
    requires Sound(t) && 0 <= run.minutes
    requires id in t.runOwner ==> t.runOwner[id] == run.game
    ensures InsertRun(t, id, run).Ok? ==> Steps(t, InsertRun(t, id, run).value, run.game)
  {
    hide Sound, Evolves, OnlyItem;
    if InsertRun(t, id, run).Ok? {
      InsertRunSound(t, id, run);
      JournalSteps(t, InsertRun(t, id, run).value, run.game);
    }
  }

  lemma UpdateRunSound(t: Tables, id: nat, run: Run)
    requires Sound(t) && 0 <= run.minutes && id in t.runs && run.game == t.runs[id].game
    ensures Sound(UpdateRun(t, id, run))
  {
    var b := UpdateRun(t, id, run);
    forall k | k in b.runs ensures RunSound(b, k) { RunIsSound(t, k); }
    forall k | k in b.sessions ensures SessionSound(b, k) { SessionIsSound(t, k); }
    JournalSound(t, b);
  }

  lemma UpdateRunSteps(t: Tables, id: nat, run: Run)
    requires Sound(t) && 0 <= run.minutes
    requires id in t.runs ==> run.game == t.runs[id].game
    ensures Steps(t, UpdateRun(t, id, run), run.game)
  {
    hide Sound, Evolves, OnlyItem;
    if id in t.runs {
      UpdateRunSound(t, id, run);
      JournalSteps(t, UpdateRun(t, id, run), run.game);
    } else {
      StepsReflexive(t, run.game);
    }
  }

  lemma AddRunMinutesSteps(t: Tables, run: Option<nat>, delta: int, g: GameId)
    requires Sound(t)
    requires run.Some? && run.value in t.runs ==> t.runs[run.value].game == g
    ensures Steps(t, AddRunMinutes(t, run, delta), g)
  {
    hide Sound, Steps, UpdateRun;
    if run.Some? && run.value in t.runs {
      RunIsSound(t, run.value);
      UpdateRunSteps(t, run.value, t.runs[run.value].(minutes := Max(0, t.runs[run.value].minutes + delta)));
    } else {
      StepsReflexive(t, g);
    }
  }

  lemma PutSessionSound(t: Tables, id: nat, s: Session)
    requires Sound(t) && SessionCheck(s) && s.game in t.items
    requires id in t.sessOwner ==> t.sessOwner[id] == s.game
    requires s.run.Some? ==> s.run.value in t.runs && t.runs[s.run.value].game == s.game
    ensures Sound(PutSession(t, id, s))
  {
    var p := PutSession(t, id, s);
    forall k | k in p.runs ensures RunSound(p, k) { RunIsSound(t, k); }
    forall k | k in p.sessions ensures SessionSound(p, k) { if k != id { SessionIsSound(t, k); } }
    JournalSound(t, p);
  }

  lemma PutSessionSteps(t: Tables, id: nat, s: Session)
    requires Sound(t) && SessionCheck(s) && s.game in t.items
    requires id in t.sessOwner ==> t.sessOwner[id] == s.game
    requires s.run.Some? ==> s.run.value in t.runs && t.runs[s.run.value].game == s.game
    ensures Steps(t, PutSession(t, id, s), s.game)
  {
    hide Sound, Evolves, OnlyItem;
    PutSessionSound(t, id, s);
    if id in t.sessions { SessionIsSound(t, id); }
    JournalSteps(t, PutSession(t, id, s), s.game);
  }

  lemma InsertSessionSteps(t: Tables, id: nat, s: Session, now: Instant)
    requires Sound(t)
    requires id in t.sessOwner ==> t.sessOwner[id] == s.game
    requires s.run.Some? && s.run.value in t.runs ==> t.runs[s.run.value].game == s.game
    ensures InsertSession(t, id, s, now).Ok? ==> Steps(t, InsertSession(t, id, s, now).value, s.game)
  {
    hide Sound, Evolves, OnlyItem, Text.Tidy;
    if InsertSession(t, id, s, now).Ok? {
      var t1 := PutSession(t, id, s);
      PutSessionSteps(t, id, s);
      var row := t1.items[s.game].(minutes := Max(0, t1.items[s.game].minutes + s.minutes), updatedAt := now);
      ItemIsSound(t1, s.game);
      UpdateItemSteps(t1, s.game, row);
      var t2 := UpdateItem(t1, s.game, row);
      StepsTransitive(t, t1, t2, s.game);
      AddRunMinutesSteps(t2, s.run, s.minutes, s.game);
      StepsTransitive(t, t2, AddRunMinutes(t2, s.run, s.minutes), s.game);
    }
  }

  lemma DropSessionSteps(t: Tables, id: nat)
    requires Sound(t) && id in t.sessions
    ensures Steps(t, DropSession(t, id), t.sessions[id].game)
  {
    DropSessionSound(t, id);
    hide Sound, Steps;
    assert OnlyJournal(t, DropSession(t, id), t.sessions[id].game);
    hide OnlyJournal;
    JournalSteps(t, DropSession(t, id), t.sessions[id].game);
  }

  lemma DropSessionSound(t: Tables, id: nat)
    requires Sound(t) && id in t.sessions
    ensures Sound(DropSession(t, id))
  {
    var d := DropSession(t, id);
    forall k | k in d.runs ensures RunSound(d, k) { RunIsSound(t, k); }
    forall k | k in d.sessions ensures SessionSound(d, k) { SessionIsSound(t, k); }
    JournalSound(t, d);
  }

  lemma AddItemMinutesSteps(t: Tables, g: GameId, delta: int)
    requires Sound(t)
    ensures Steps(t, AddItemMinutes(t, g, delta), g)
  {
    hide Sound, Evolves, OnlyItem, Text.Tidy;
    StepsReflexive(t, g);
    if g in t.items {
      ItemIsSound(t, g);
      UpdateItemSteps(t, g, t.items[g].(minutes := Max(0, t.items[g].minutes + delta)));
    }
  }

  lemma DeleteSessionSteps(t: Tables, id: nat)
    requires Sound(t) && id in t.sessions
    ensures Steps(t, DeleteSession(t, id), t.sessions[id].game)
  {
    hide Sound, Evolves, OnlyItem, AddItemMinutes, AddRunMinutes;
    var s := t.sessions[id];
    SessionIsSound(t, id);
    DropSessionSteps(t, id);
    var t1 := DropSession(t, id);
    AddItemMinutesSteps(t1, s.game, -s.minutes);
    AddItemMinutesKeepsJournal(t1, s.game, -s.minutes);
    var t2 := AddItemMinutes(t1, s.game, -s.minutes);
    StepsTransitive(t, t1, t2, s.game);
    AddRunMinutesSteps(t2, s.run, -s.minutes, s.game);
    StepsTransitive(t, t2, AddRunMinutes(t2, s.run, -s.minutes), s.game);
  }

  lemma UpdateSessionSteps(t: Tables, id: nat, playedOn: Day, minutes: int, note: string)
    requires Sound(t) && id in t.sessions
    ensures UpdateSession(t, id, playedOn, minutes, note).Ok? ==>
              Steps(t, UpdateSession(t, id, playedOn, minutes, note).value, t.sessions[id].game)
  {
    hide Sound, Evolves, OnlyItem, AddItemMinutes;
    if UpdateSession(t, id, playedOn, minutes, note).Ok? {
      var was := t.sessions[id];
      var s := was.(playedOn := playedOn, minutes := minutes, note := note);
      SessionIsSound(t, id);
      var t0 := t.(sessions := t.sessions[id := s]);
      assert t.sessOwner[id := s.game] == t.sessOwner;
      assert t0 == PutSession(t, id, s);
      PutSessionSteps(t, id, s);
      AddItemMinutesSteps(t0, s.game, s.minutes - was.minutes);
      AddItemMinutesKeepsJournal(t0, s.game, s.minutes - was.minutes);
      var t1 := AddItemMinutes(t0, s.game, s.minutes - was.minutes);
      StepsTransitive(t, t0, t1, s.game);
      AddRunMinutesSteps(t1, s.run, -was.minutes, s.game);
      var t2 := AddRunMinutes(t1, s.run, -was.minutes);
      StepsTransitive(t, t1, t2, s.game);
      if s.run.Some? && s.run.value in t2.runs {
        var r := t2.runs[s.run.value].(minutes := t2.runs[s.run.value].minutes + s.minutes);
        UpdateRunSteps(t2, s.run.value, r);
        StepsTransitive(t, t2, UpdateRun(t2, s.run.value, r), s.game);
      }
    }
  }

  /** Cascading a set of one game's sessions away. */
  lemma {:induction false} DeleteSessionsSteps(t: Tables, ids: seq<nat>, g: GameId)
    requires Sound(t)
    requires forall id | id in ids :: id in t.sessions ==> t.sessions[id].game == g
    ensures Steps(t, DeleteSessions(t, ids), g)
    decreases ids
  {
    hide Sound, Evolves, OnlyItem, DeleteSession;
    if ids == [] {
      StepsReflexive(t, g);
    } else {
      var t1 := DeleteSession(t, ids[0]);
      assert ids[0] in ids;
      DeleteSessionOne(t, ids[0], g);
      forall id | id in ids[1..] ensures id in t1.sessions ==> t1.sessions[id].game == g { assert id in ids; }
      DeleteSessionsSteps(t1, ids[1..], g);
      StepsTransitive(t, t1, DeleteSessions(t1, ids[1..]), g);
    }
  }

  lemma DeleteSessionOne(t: Tables, id: nat, g: GameId)
    requires Sound(t) && (id in t.sessions ==> t.sessions[id].game == g)
    ensures Steps(t, DeleteSession(t, id), g)
    ensures DeleteSession(t, id).sessions == t.sessions - {id}
  {
    hide Sound, Evolves, OnlyItem;
    if id in t.sessions {
      DeleteSessionSteps(t, id);
    } else {
      StepsReflexive(t, g);
      assert t.sessions - {id} == t.sessions;
    }
  }

  /** Once no session names a run, dropping it is one more step. */
  lemma DropRunSteps(t: Tables, id: nat)
    requires Sound(t) && id in t.runs && SessionsOfRun(t, id) == {}
    ensures Steps(t, WithoutRun(t, id), t.runs[id].game)
  {
    WithoutRunSound(t, id);
    hide Sound, Steps;
    assert OnlyJournal(t, WithoutRun(t, id), t.runs[id].game);
    hide OnlyJournal;
    JournalSteps(t, WithoutRun(t, id), t.runs[id].game);
  }

  lemma WithoutRunSound(t: Tables, id: nat)
    requires Sound(t) && id in t.runs && SessionsOfRun(t, id) == {}
    ensures Sound(WithoutRun(t, id))
  {
    var d := WithoutRun(t, id);
    forall k | k in d.runs ensures RunSound(d, k) { RunIsSound(t, k); }
    forall k | k in d.sessions ensures SessionSound(d, k) {
      SessionIsSound(t, k);
      assert k !in SessionsOfRun(t, id);
    }
    JournalSound(t, d);
  }

  function WithoutRun(t: Tables, id: nat): Tables {
    t.(runs := t.runs - {id})
  }

  lemma AddRunMinutesOnly(t: Tables, run: Option<nat>, delta: int)
    ensures AddRunMinutes(t, run, delta) == t.(runs := AddRunMinutes(t, run, delta).runs)
    ensures AddRunMinutes(t, run, delta).runs.Keys == t.runs.Keys
    ensures forall r | r in t.runs ::
              AddRunMinutes(t, run, delta).runs[r] == t.runs[r].(
                minutes := if run == Some(r) then Max(0, t.runs[r].minutes + delta) else t.runs[r].minutes)
  {
    if run.Some? && run.value in t.runs {
      var r := t.runs[run.value];
      assert AddRunMinutes(t, run, delta) == t.(runs := t.runs[run.value := r.(minutes := Max(0, r.minutes + delta))]);
      hide AddRunMinutes;
    } else {
      assert AddRunMinutes(t, run, delta) == t;
      hide AddRunMinutes;
    }
  }

  lemma AddItemMinutesOnly(t: Tables, g: GameId, delta: int)
    requires g in t.items
    ensures var t' := AddItemMinutes(t, g, delta);
            && t'.runs == t.runs && t'.sessions == t.sessions && t'.items.Keys == t.items.Keys
            && t'.items[g].minutes == Max(0, t.items[g].minutes + delta)
            && (forall h | h in t.items && h != g :: t'.items[h] == t.items[h])
  {
  }

  lemma AddItemMinutesIgnoresRuns(t: Tables, id: nat, g: GameId, delta: int)
    ensures AddItemMinutes(WithoutRun(t, id), g, delta) == WithoutRun(AddItemMinutes(t, g, delta), id)
  {
  }

  lemma AddRunMinutesForgotten(t: Tables, id: nat, delta: int)
    ensures AddRunMinutes(WithoutRun(t, id), Some(id), delta) == WithoutRun(t, id)
    ensures WithoutRun(AddRunMinutes(t, Some(id), delta), id) == WithoutRun(t, id)
  {
    AddRunMinutesOnly(t, Some(id), delta);
    assert AddRunMinutes(t, Some(id), delta).runs - {id} == t.runs - {id};
  }

  /** With its run already gone, deleting a session leaves the runs alone. */
  lemma DeleteCommutes(t: Tables, id: nat, k: nat)
    requires id in t.runs && (k in t.sessions ==> t.sessions[k].run == Some(id))
    ensures DeleteSession(WithoutRun(t, id), k) == WithoutRun(DeleteSession(t, k), id)
    ensures id in DeleteSession(t, k).runs && DeleteSession(t, k).runs[id].game == t.runs[id].game
    ensures DeleteSession(t, k).sessions == t.sessions - {k}
  {
    hide AddItemMinutes, AddRunMinutes;
    if k in t.sessions {
      var s := t.sessions[k];
      var t1 := AddItemMinutes(DropSession(t, k), s.game, -s.minutes);
      AddItemMinutesIgnoresRuns(DropSession(t, k), id, s.game, -s.minutes);
      AddItemMinutesKeepsJournal(DropSession(t, k), s.game, -s.minutes);
      AddRunMinutesOnly(t1, s.run, -s.minutes);
      AddRunMinutesForgotten(t1, id, -s.minutes);
      assert WithoutRun(DropSession(t, k), id) == DropSession(WithoutRun(t, id), k);
    } else {
      assert t.sessions - {k} == t.sessions;
    }
  }

  lemma {:induction false} CascadeCommutes(t: Tables, id: nat, ids: seq<nat>)
    requires id in t.runs
    requires forall k | k in ids :: k in t.sessions ==> t.sessions[k].run == Some(id)
    ensures DeleteSessions(WithoutRun(t, id), ids) == WithoutRun(DeleteSessions(t, ids), id)
    ensures id in DeleteSessions(t, ids).runs && DeleteSessions(t, ids).runs[id].game == t.runs[id].game
    ensures DeleteSessions(t, ids).sessions == t.sessions - (set k | k in ids)
    decreases ids
  {
    hide DeleteSession, WithoutRun;
    if ids != [] {
      var t1 := DeleteSession(t, ids[0]);
      assert ids[0] in ids;
      DeleteCommutes(t, id, ids[0]);
      forall k | k in ids[1..] ensures k in t1.sessions ==> t1.sessions[k].run == Some(id) { assert k in ids; }
      CascadeCommutes(t1, id, ids[1..]);
      assert (set k | k in ids) == {ids[0]} + (set k | k in ids[1..]);
    } else {
      assert (set k | k in ids) == {};
    }
  }

  /** ids are the run's sessions, each once, in any order. */
  ghost predicate Lists(t: Tables, id: nat, ids: seq<nat>) {
    && (forall i, j | 0 <= i < j < |ids| :: ids[i] != ids[j])
    && (forall k :: k in ids <==> k in SessionsOfRun(t, id))
  }

  lemma AscendingIsList(t: Tables, id: nat)
    ensures Lists(t, id, Ascending(SessionsOfRun(t, id)))
  {
    AscendingLists(SessionsOfRun(t, id));
    hide Ascending, SessionsOfRun;
  }

  lemma ListedSessions(t: Tables, id: nat, ids: seq<nat>)
    requires Sound(t) && id in t.runs && Lists(t, id, ids)
    ensures forall k | k in ids ::
              k in t.sessions && t.sessions[k].run == Some(id) && t.sessions[k].game == t.runs[id].game
  {
    hide Sound;
    forall k | k in ids ensures k in t.sessions && t.sessions[k].run == Some(id)
                                && t.sessions[k].game == t.runs[id].game {
      SessionIsSound(t, k);
    }
  }

  /** A run and its sessions go, in whatever order the cascade takes them. */
  lemma CascadeSteps(t: Tables, id: nat, ids: seq<nat>)
    requires Sound(t) && id in t.runs && Lists(t, id, ids)
    ensures Steps(t, DeleteSessions(WithoutRun(t, id), ids), t.runs[id].game)
    ensures DeleteSessions(WithoutRun(t, id), ids).sessions == t.sessions - SessionsOfRun(t, id)
  {
    hide Sound, Evolves, OnlyItem, DeleteSessions;
    var g := t.runs[id].game;
    ListedSessions(t, id, ids);
    DeleteSessionsSteps(t, ids, g);
    CascadeCommutes(t, id, ids);
    var d := DeleteSessions(t, ids);
    assert (set k | k in ids) == SessionsOfRun(t, id);
    assert SessionsOfRun(d, id) == {};
    DropRunSteps(d, id);
    StepsTransitive(t, d, WithoutRun(d, id), g);
  }

  lemma PutGameEvolves(t: Tables, g: GameId, game: Game)
    requires Sound(t)
    ensures Sound(PutGame(t, g, game)) && Evolves(t, PutGame(t, g, game))
    ensures PutGame(t, g, game).runs == t.runs && PutGame(t, g, game).sessions == t.sessions
  {
    PutGameSound(t, g, game);
    PutGameIs(t, g, game);
    if g in t.games && g in t.items && Watched(t.games[g]) != Watched(game) {
      GameBumps(t, g, game);
    } else {
      GameQuiet(t, g, game);
    }
    hide PutGame, Sound, Evolves;
  }

  lemma GameBumps(t: Tables, g: GameId, game: Game)
    requires Sound(t) && g in t.items
    ensures Evolves(t, t.(games := t.games[g := game], rev := Some(RevOf(t) + 1),
                          items := t.items[g := t.items[g].(rev := RevOf(t) + 1)]))
  {
    var b := t.(games := t.games[g := game], rev := Some(RevOf(t) + 1),
                items := t.items[g := t.items[g].(rev := RevOf(t) + 1)]);
    forall h | h in b.items && b.items[h].rev <= RevOf(t) ensures KeptItem(t, b, h) { ItemIsSound(t, h); }
    forall h | h !in b.items && (h in t.items || h in t.tombs) ensures Buried(t, b, h) {}
    hide Sound, KeptItem, Buried;
  }

  lemma GameQuiet(t: Tables, g: GameId, game: Game)
    requires Sound(t) && (g in t.items ==> Watched(t.games[g]) == Watched(game))
    ensures Evolves(t, t.(games := t.games[g := game]))
  {
    var b := t.(games := t.games[g := game]);
    forall h | h in b.items && b.items[h].rev <= RevOf(t) ensures KeptItem(t, b, h) { ItemIsSound(t, h); }
    forall h | h !in b.items && (h in t.items || h in t.tombs) ensures Buried(t, b, h) {}
    hide Sound, KeptItem, Buried;
  }

  /** The catalog row changes, and a listed game's row gets the next revision. */
  lemma PutGameIs(t: Tables, g: GameId, game: Game)
    ensures PutGame(t, g, game) ==
            if g in t.games && g in t.items && Watched(t.games[g]) != Watched(game) then
              t.(games := t.games[g := game], rev := Some(RevOf(t) + 1),
                 items := t.items[g := t.items[g].(rev := RevOf(t) + 1)])
            else t.(games := t.games[g := game])
  {
    var put := t.(games := t.games[g := game]);
    if g in t.games && g in t.items && Watched(t.games[g]) != Watched(game) {
      var p := UpdateItem(put, g, t.items[g]);
      assert p.items == t.items[g := t.items[g].(rev := RevOf(t) + 1)];
    }
  }

  lemma PutGameSound(t: Tables, g: GameId, game: Game)
    requires Sound(t)
    ensures Sound(PutGame(t, g, game))
  {
    var put := t.(games := t.games[g := game]);
    forall k | k in put.runs ensures RunSound(put, k) { assert RunSound(t, k); }
    forall k | k in put.sessions ensures SessionSound(put, k) { assert SessionSound(t, k); }
    assert Sound(put);
    if g in t.games && g in t.items && Watched(t.games[g]) != Watched(game) {
      UpdateItemSteps(put, g, t.items[g]);
    }
  }
}
