// What an import leaves in the journal and in the library: an entry's own
// sessions day by day, what is left of the adjustment, and which entries of a
// batch are looked at.
module LibraryJournal {
  import opened Prelude
  import opened LibraryTypes
  import opened LibraryTables
  import opened LibraryLedger
  import opened LibraryWrites
  import opened LibraryUndo
  import opened LibraryImport
  import opened LibraryHistory
  import opened LibraryInvariant
  import opened LibraryEffects
  import Text

  // ---- The sessions of a new game -----------------------------------------

  /** How many of the first i sessions have positive minutes and a readable day. */
  function UsableBefore(ss: seq<ImportedSession>, i: nat): nat
    requires i <= |ss|
  {
    if i == 0 then 0
    else UsableBefore(ss, i - 1) + if ss[i - 1].minutes > 0 && ss[i - 1].playedOn.ADay? then 1 else 0
  }

  /** Their minutes. */
  function UsableMinutes(ss: seq<ImportedSession>, i: nat): int
    requires i <= |ss|
  {
    if i == 0 then 0
    else UsableMinutes(ss, i - 1) + if ss[i - 1].minutes > 0 && ss[i - 1].playedOn.ADay? then ss[i - 1].minutes else 0
  }

  lemma {:induction false} UsableShifts(ss: seq<ImportedSession>, i: nat)
    requires 0 < i <= |ss|
    ensures var first := ss[0].minutes > 0 && ss[0].playedOn.ADay?;
            && UsableBefore(ss, i) == UsableBefore(ss[1..], i - 1) + (if first then 1 else 0)
            && UsableMinutes(ss, i) == UsableMinutes(ss[1..], i - 1) + (if first then ss[0].minutes else 0)
  {
    if i > 1 {
      UsableShifts(ss, i - 1);
      assert ss[1..][i - 2] == ss[i - 1];
    } else {
      assert UsableBefore(ss, 0) == 0 && UsableMinutes(ss, 0) == 0;
    }
  }

  lemma {:induction false} UsableIsImported(ss: seq<ImportedSession>)
    ensures UsableMinutes(ss, |ss|) == ImportedMinutes(ss)
  {
    if ss != [] {
      UsableIsImported(ss[1..]);
      UsableShifts(ss, |ss|);
    }
  }

  /** Session i of an entry has become this session of the journal. */
  ghost predicate CameIn(s: ImportedSession, g: GameId, now: Instant, row: Session) {
    s.playedOn.ADay? && row == Session(g, None, s.playedOn.day, s.minutes, Text.Trim(s.note), Import, now)
  }

  /** Session i is usable, and the sessions before it leave it this id. */
  ghost predicate Lands(ss: seq<ImportedSession>, i: nat, base: nat, id: nat) {
    i < |ss| && ss[i].minutes > 0 && ss[i].playedOn.ADay? && id == base + UsableBefore(ss, i)
  }

  lemma LandsLater(ss: seq<ImportedSession>, base: nat, i: nat, id: nat)
    requires ss != []
    ensures var first := ss[0].minutes > 0 && ss[0].playedOn.ADay?;
            && (Lands(ss, 0, base, id) <==> first && id == base)
            && (Lands(ss, i + 1, base, id) <==> Lands(ss[1..], i, base + (if first then 1 else 0), id))
  {
    assert UsableBefore(ss, 0) == 0;
    if i + 1 <= |ss| { UsableShifts(ss, i + 1); }
    hide UsableBefore;
  }

  /** after is before with exactly the usable sessions, in order under the ids from base on. */
  ghost predicate Journaled(before: map<nat, Session>, after: map<nat, Session>, g: GameId, ss: seq<ImportedSession>,
                            base: nat, now: Instant) {
    && (forall id | id in before :: id in after && after[id] == before[id])
    && (forall i: nat, id: nat | Lands(ss, i, base, id) :: id in after && CameIn(ss[i], g, now, after[id]))
    && (forall id: nat | id in after && id !in before :: exists i: nat :: Lands(ss, i, base, id))
  }

  lemma JournaledSkip(before: map<nat, Session>, after: map<nat, Session>, g: GameId, ss: seq<ImportedSession>,
                      base: nat,
                      now: Instant)
    requires ss != [] && !(ss[0].minutes > 0 && ss[0].playedOn.ADay?)
    requires Journaled(before, after, g, ss[1..], base, now)
    ensures Journaled(before, after, g, ss, base, now)
  {
    forall i: nat, id: nat | Lands(ss, i, base, id) ensures id in after && CameIn(ss[i], g, now, after[id]) {
      LandsLater(ss, base, if i > 0 then i - 1 else 0, id);
      assert Lands(ss[1..], i - 1, base, id) && ss[1..][i - 1] == ss[i];
    }
    hide Lands, CameIn;
    forall id: nat | id in after && id !in before ensures exists i: nat :: Lands(ss, i, base, id) {
      var i: nat :| Lands(ss[1..], i, base, id);
      LandsLater(ss, base, i, id);
    }
  }

  lemma JournaledNext(before: map<nat, Session>, mid: map<nat, Session>, after: map<nat, Session>, g: GameId,
                      ss: seq<ImportedSession>, base: nat, now: Instant)
    requires ss != [] && ss[0].minutes > 0 && ss[0].playedOn.ADay? && base !in before
    requires mid.Keys == before.Keys + {base} && CameIn(ss[0], g, now, mid[base])
    requires forall id | id in before :: mid[id] == before[id]
    requires Journaled(mid, after, g, ss[1..], base + 1, now)
    ensures Journaled(before, after, g, ss, base, now)
  {
    assert base in mid;
    forall id | id in before ensures id in after && after[id] == before[id] { assert id in mid; }
    forall i: nat, id: nat | Lands(ss, i, base, id) ensures id in after && CameIn(ss[i], g, now, after[id]) {
      LandsLater(ss, base, if i > 0 then i - 1 else 0, id);
      if i > 0 { assert Lands(ss[1..], i - 1, base + 1, id) && ss[1..][i - 1] == ss[i]; }
    }
    hide Lands, CameIn;
    forall id: nat | id in after && id !in before ensures exists i: nat :: Lands(ss, i, base, id) {
      if id == base {
        LandsLater(ss, base, 0, id);
      } else {
        var i: nat :| Lands(ss[1..], i, base + 1, id);
        LandsLater(ss, base, i, id);
      }
    }
  }

  lemma {:induction false} ImportedJournal(t: Tables, g: GameId, ss: seq<ImportedSession>, now: Instant)
    requires Sound(t) && g in t.items
    ensures var r := InsertImported(t, g, ss, now);
            r.Ok? && Journaled(t.sessions, r.value.sessions, g, ss, t.sessSeq + 1, now)
    decreases ss
  {
    hide Sound, Moves, InsertSession, Journaled;
    if ss == [] {
      NothingCame(t.sessions, g, t.sessSeq + 1, now);
    } else if !(ss[0].minutes > 0 && ss[0].playedOn.ADay?) {
      ImportedJournal(t, g, ss[1..], now);
      JournaledSkip(t.sessions, InsertImported(t, g, ss[1..], now).value.sessions, g, ss, t.sessSeq + 1, now);
    } else {
      var s := Session(g, None, ss[0].playedOn.day, ss[0].minutes, Text.Trim(ss[0].note), Import, now);
      SessionWithoutRun(t, s, now);
      InsertSessionMinutes(t, t.sessSeq + 1, s, now);
      InsertSessionRow(t, t.sessSeq + 1, s, now);
      FreshSessionId(t);
      var t1 := InsertSession(t, t.sessSeq + 1, s, now).value;
      MovedKeeps(t, t1, g);
      ImportedJournal(t1, g, ss[1..], now);
      JournaledNext(t.sessions, t1.sessions, InsertImported(t1, g, ss[1..], now).value.sessions,
                    g, ss, t.sessSeq + 1, now);
    }
  }

  lemma NothingCame(before: map<nat, Session>, g: GameId, base: nat, now: Instant)
    ensures Journaled(before, before, g, [], base, now)
  {
  }

  /** Entry a, before the new ids, is replaced or goes: the new sessions do not notice. */
  lemma JournaledSwap(before: map<nat, Session>, mid: map<nat, Session>, a: nat, keep: Option<Session>, g: GameId,
                      ss: seq<ImportedSession>, base: nat, now: Instant)
    requires Journaled(before, mid, g, ss, base, now) && a in before && a < base
    ensures var left := if keep.Some? then before[a := keep.value] else before - {a};
            var after := if keep.Some? then mid[a := keep.value] else mid - {a};
            Journaled(left, after, g, ss, base, now)
  {
    hide CameIn;
    var after := if keep.Some? then mid[a := keep.value] else mid - {a};
    forall i: nat, id: nat | Lands(ss, i, base, id) ensures id in after && CameIn(ss[i], g, now, after[id]) {
      LandsAbove(ss, i, base, id);
    }
  }

  lemma LandsAbove(ss: seq<ImportedSession>, i: nat, base: nat, id: nat)
    requires Lands(ss, i, base, id)
    ensures base <= id
  {
  }

  lemma ShrunkSessions(t: Tables, g: GameId, id: nat, total: int, sum: int)
    requires Sound(t) && g in t.items && id in t.sessions && Adjustments(t, g) == {id}
             && t.sessions[id].minutes == total
    requires ShrinkAdjustment(t, g, sum).Ok?
    ensures ShrinkAdjustment(t, g, sum).value.sessions ==
            if sum == 0 then t.sessions
            else if sum == total then t.sessions - {id}
            else t.sessions[id := t.sessions[id].(minutes := total - sum)]
  {
    hide Sound, Ascending, DeleteSession, UpdateSession;
    NewestAdjustment(t, g, id);
    assert id in Adjustments(t, g);
    SessionIsSound(t, id);
    var adj := t.sessions[id];
    if sum == 0 {
    } else if sum == total {
      DeleteSessionMinutes(t, id);
    } else {
      UpdateSessionMinutes(t, id, adj.playedOn, total - sum, adj.note);
      assert adj.(playedOn := adj.playedOn, minutes := total - sum, note := adj.note) == adj.(minutes := total - sum);
    }
  }

  /**
   * The journal an added entry leaves: its usable sessions, day, minutes and trimmed note as given, in
   * order under the next ids, on no run; and before them, where the entry gives a total, one
   * adjustment on the run the entry opened for what the sessions do not account for, unless they
   * account for all of it.
   */
  lemma AddedJournal(t: Tables, e: ImportEntry, now: Instant)
    requires Sound(t) && e.game !in t.items && ImportOne(t, e, now).Ok? && ImportOne(t, e, now).value.snap.Some?
    ensures var t' := ImportOne(t, e, now).value.tables;
            var sum := UsableMinutes(e.sessions, |e.sessions|);
            && e.game in t'.items
            && if e.minutes <= 0 then Journaled(t.sessions, t'.sessions, e.game, e.sessions, t.sessSeq + 1, now)
               else
                 var left := if sum == e.minutes then t.sessions
                             else t.sessions[t.sessSeq + 1 := Session(
                                               e.game, t'.items[e.game].current, now / 86400, e.minutes - sum,
                                               "", Adjust, now)];
                 Journaled(left, t'.sessions, e.game, e.sessions, t.sessSeq + 2, now)
  {
    hide Sound, Moves, Linked, InOrder, NextState, TakeSnapshot, JustAdded, AddImportedSessions, AddChange, ApplyChange,
         Journaled, NewTotal;
    var g, ch := e.game, AddChange(e);
    AddTotal(e);
    AddNotes(e);
    AddedHasAdjustment(t, g, ch, now);
    ApplyChangeMoves(t, g, ch, Upsert, now);
    ApplyChangeLogs(t, g, ch, Upsert, now);
    ApplyChangeSaves(t, g, ch, Upsert, now);
    var t1 := ApplyChange(t, g, ch, Upsert, now).value;
    MovedKeeps(t, t1, g);
    ImportedSessionsKeepTotal(t1, e, Max(0, e.minutes), now);
    FreshSessionId(t);
    AddedSessions(t1, e, Max(0, e.minutes), t.sessSeq + 1, now);
    if e.minutes > 0 {
      var a, adj := t.sessSeq + 1, t1.sessions[t.sessSeq + 1];
      AddedThenDropped(t.sessions, a, adj, adj.(minutes := e.minutes - UsableMinutes(e.sessions, |e.sessions|)));
      assert adj.(minutes := e.minutes) == adj;
    }
    hide ImportOne;
  }

  lemma AddedThenDropped(m: map<nat, Session>, a: nat, s: Session, s1: Session)
    requires a !in m
    ensures m[a := s] - {a} == m && m[a := s][a := s1] == m[a := s1]
  {
  }

  lemma AddNotes(e: ImportEntry)
    ensures AddChange(e).sessionNote == "" && AddChange(e).playedOn == NoDay && AddChange(e).minutesDelta.None?
    ensures AddChange(e).minutes == (if e.minutes > 0 then Some(e.minutes) else None)
    ensures Text.Trim("") == ""
  {
  }

  lemma AddedSessions(t: Tables, e: ImportEntry, total: int, a: nat, now: Instant)
    requires Sound(t) && JustAdded(t, e.game, total) && 0 <= total && AddImportedSessions(t, e, now).Ok?
    requires total > 0 ==> a in t.sessions && t.sessions[a].game == e.game && t.sessions[a].source == Adjust
                           && a <= t.sessSeq
                           && t.sessions[a].minutes == total
    ensures var t' := AddImportedSessions(t, e, now).value;
            var sum := UsableMinutes(e.sessions, |e.sessions|);
            var left := if total == 0 || sum == 0 then t.sessions
                        else if sum == total then t.sessions - {a}
                        else t.sessions[a := t.sessions[a].(minutes := total - sum)];
            Journaled(left, t'.sessions, e.game, e.sessions, t.sessSeq + 1, now)
            && e.game in t.items && e.game in t'.items && t'.items[e.game].current == t.items[e.game].current
  {
    hide Sound, Moves, InsertImported, ShrinkAdjustment, Adjustments, Linked, Journaled;
    var g := e.game;
    UsableIsImported(e.sessions);
    InsertImportedAdds(t, g, e.sessions, now);
    ImportedJournal(t, g, e.sessions, now);
    var t1 := InsertImported(t, g, e.sessions, now).value;
    var sum := ImportedMinutes(e.sessions);
    AddedMeansOnlyMinutes(t, t1, g, sum);
    MovedKeeps(t, t1, g);
    ImportedSessionsKeepTotal(t, e, total, now);
    if total > 0 {
      var id :| id in t.sessions && IsAdjustment(t, g, id, total);
      OnlyAdjustment(t, g, id, a);
      ShrunkSessions(t1, g, a, total, sum);
      if sum == total {
        JournaledSwap(t.sessions, t1.sessions, a, None, g, e.sessions, t.sessSeq + 1, now);
      } else if sum != 0 {
        JournaledSwap(t.sessions, t1.sessions, a, Some(t.sessions[a].(minutes := total - sum)), g, e.sessions,
                      t.sessSeq + 1, now);
      }
    } else {
      ShrinkNothing(t1, g, sum);
    }
  }

  lemma OnlyAdjustment(t: Tables, g: GameId, id: nat, a: nat)
    requires Adjustments(t, g) == {id} && a in t.sessions && t.sessions[a].game == g && t.sessions[a].source == Adjust
    ensures a == id
  {
    assert a in Adjustments(t, g);
  }

  /** A game already there gets no sessions of the entry's; a larger total is logged as one adjustment. */
  lemma FilledJournal(t: Tables, e: ImportEntry, now: Instant)
    requires Sound(t) && e.game in t.items && RunsLinked(t, e.game) && ImportOne(t, e, now).Ok?
    ensures var t' := ImportOne(t, e, now).value.tables;
            && e.game in t'.items
            && t'.sessions ==
               if e.minutes <= t.items[e.game].minutes then t.sessions
               else t.sessions[t.sessSeq + 1 := Session(
                                 e.game, t'.items[e.game].current, now / 86400,
                                 e.minutes - t.items[e.game].minutes, "", Adjust,
                                 now)]
  {
    hide Sound, Moves, Linked, NextState, TakeSnapshot, FillChange, ApplyChange, AddImportedSessions, Text.Trim;
    var g, r := e.game, t.items[e.game];
    var ch := FillChange(r, e);
    FillMinutes(r, e);
    if ch != NO_CHANGE {
      ExistingIsFound(t, g, ch, now);
      ApplyChangeLogs(t, g, ch, Upsert, now);
      ApplyChangeSaves(t, g, ch, Upsert, now);
    }
  }

  lemma FillMinutes(r: Row, e: ImportEntry)
    ensures var ch := FillChange(r, e);
            && ch.sessionNote == "" && ch.playedOn == NoDay && ch.minutesDelta.None?
            && ch.minutes == (if e.minutes > r.minutes then Some(e.minutes) else None)
    ensures Text.Trim("") == "" && NO_CHANGE.minutes.None?
  {
    hide AddTags;
  }

  // ---- The rows of a batch ------------------------------------------------

  function Capped(rating: int): int {
    if rating > 100 then 100 else rating
  }

  function TimeOf(v: DateText, unset: Option<Instant>): Option<Instant> {
    if v.OnDate? then Some(v.day * 86400) else if v.NoDate? then unset else None
  }

  /** The row of a game that was there: what it lacked is filled in, its tags are added to. */
  ghost predicate EntryFilled(r: Row, e: ImportEntry, r': Row) {
    && r'.status == r.status && r'.createdAt == r.createdAt && r'.medium == r.medium
    && r'.rating == (if r.rating == 0 && e.rating > 0 then Capped(e.rating) else r.rating)
    && r'.minutes == (if r.minutes < e.minutes then e.minutes else r.minutes)
    && r'.notes == (if r.notes == "" then e.notes else r.notes)
    && r.tags <= r'.tags
    && (forall k :: k in Text.Keys(r'.tags) <==> k in Text.Keys(r.tags) || (k != "" && k in Text.Keys(e.tags)))
    && r'.owned == (if r.owned != [] || Text.Trim(e.platform) == "" then r.owned else [Text.Trim(e.platform)])
    && r'.startedAt == (if r.startedAt.Some? then r.startedAt else TimeOf(e.startedAt, None))
    && r'.completedAt == (if r.completedAt.Some? then r.completedAt else TimeOf(e.completedAt, None))
  }

  /** The row of a new game: what the entry says. */
  ghost predicate EntryAdded(e: ImportEntry, r': Row, now: Instant) {
    && r'.status == (if e.status.Is? then e.status.status else Backlog)
    && r'.rating == (if e.rating > 0 then Capped(e.rating) else 0)
    && r'.minutes == (if e.minutes > 0 then e.minutes else UsableMinutes(e.sessions, |e.sessions|))
    && r'.notes == e.notes
    && Text.Tidy(r'.tags) && (forall k :: k in Text.Keys(r'.tags) <==> k != "" && k in Text.Keys(e.tags))
    && r'.owned == (if Text.Trim(e.platform) == "" then [] else [Text.Trim(e.platform)])
    && r'.startedAt == TimeOf(e.startedAt, if r'.status.Playing? then Some(now) else None)
    && r'.completedAt == TimeOf(e.completedAt, if r'.status.Completed? then Some(now) else None)
  }

  lemma FilledSays(r: Row, e: ImportEntry, r': Row)
    requires Filled(r, e, r') && RowGood(r)
    ensures EntryFilled(r, e, r')
  {
    hide Text.Tidy, Text.Keys, Text.Distinct, Text.Trim;
    AddTagsKeeps(r, e);
    Text.DistinctIsTidy(r.tags + e.tags, {});
    Text.KeysConcat(r.tags, e.tags);
    TidyKeys(r.tags);
    Text.DistinctOne(e.platform);
    BlankTrims();
  }

  lemma TidyKeys(labels: seq<string>)
    requires Text.Tidy(labels)
    ensures "" !in Text.Keys(labels)
  {
    forall i | 0 <= i < |labels| ensures Text.Key(labels[i]) != "" {
      assert |Text.Lower(labels[i])| == |labels[i]|;
    }
  }

  lemma BlankTrims()
    ensures Text.Trim("") == ""
  {
  }

  lemma AddedSays(e: ImportEntry, r': Row, now: Instant)
    requires Added(e, r', now)
    ensures EntryAdded(e, r', now)
  {
    Text.DistinctIsTidy(e.tags, {});
    Text.DistinctOne(e.platform);
    UsableIsImported(e.sessions);
    BlankTrims();
    hide Text.Tidy, Text.Keys, Text.Distinct, Text.Trim;
  }

  /** What an entry does to its game's row, in the library before and after. */
  ghost predicate RowImported(t: Tables, e: ImportEntry, r: Tables, now: Instant) {
    if e.game in t.items then e.game in r.items && EntryFilled(t.items[e.game], e, r.items[e.game])
    else if e.game in t.games then e.game in r.items && EntryAdded(e, r.items[e.game], now)
    else e.game !in r.items
  }

  lemma OneImported(t: Tables, e: ImportEntry, now: Instant)
    requires Sound(t) && RunsLinked(t, e.game) && ImportOne(t, e, now).Ok?
    ensures RowImported(t, e, ImportOne(t, e, now).value.tables, now)
  {
    hide Sound, Moves, Linked, KeepsOrder, Filled, Added, EntryFilled, EntryAdded, TakeSnapshot, RowGood;
    ImportOneMoves(t, e, now);
    var o := ImportOne(t, e, now).value;
    if e.game in t.items {
      ItemIsSound(t, e.game);
      FilledSays(t.items[e.game], e, o.tables.items[e.game]);
    } else if e.game in t.games {
      AddedSays(e, o.tables.items[e.game], now);
    } else {
      MissingGame(t, e, now);
    }
    hide ImportOne;
  }

  lemma {:induction false} BatchRows(b: Batch, hs: seq<ImportEntry>, now: Instant)
    requires Ready(b.tables) && DistinctGames(hs) && ImportEach(b, hs, now).Ok?
    ensures var r := ImportEach(b, hs, now).value.tables;
            && (forall k | 0 <= k < |hs| :: RowImported(b.tables, hs[k], r, now))
            && (forall g | forall k | 0 <= k < |hs| :: hs[k].game != g :: RowOf(r, g) == RowOf(b.tables, g))
            && r.games == b.tables.games
    decreases hs
  {
    hide ImportOne, Sound, Evolves, Covered, AllInOrder, AllLinked, Counted, Advances, EntryFilled, EntryAdded;
    if hs != [] {
      var b1 := FirstHead(b, hs, now);
      LinkedAt(b.tables, hs[0].game);
      OneImported(b.tables, hs[0], now);
      var rest := hs[1..];
      forall k | 0 <= k < |rest| ensures rest[k] == hs[k + 1] && rest[k].game != hs[0].game {}
      BatchRows(b1, rest, now);
      var r := ImportEach(b1, rest, now).value.tables;
      forall k | 0 <= k < |hs| ensures RowImported(b.tables, hs[k], r, now) {
        if k > 0 {
          assert hs[k] == rest[k - 1];
          assert RowImported(b1.tables, rest[k - 1], r, now);
        } else {
          assert RowOf(r, hs[0].game) == RowOf(b1.tables, hs[0].game);
        }
      }
      forall g | forall k | 0 <= k < |hs| :: hs[k].game != g ensures RowOf(r, g) == RowOf(b.tables, g) {
        assert hs[0].game != g;
        forall k | 0 <= k < |rest| ensures rest[k].game != g { assert rest[k] == hs[k + 1]; }
      }
    }
  }

  /** The first entry of each game, entries without a game aside. */
  predicate IsFirst(es: seq<ImportEntry>, i: int) {
    0 <= i < |es| && es[i].game != 0 && forall j | 0 <= j < i :: es[j].game != es[i].game
  }

  lemma {:induction false} HeadsAreFirsts(es: seq<ImportEntry>, seen: set<GameId>)
    ensures forall i | IsFirst(es, i) && es[i].game !in seen :: es[i] in Heads(es, seen)
    ensures forall h | h in Heads(es, seen) :: exists i :: IsFirst(es, i) && es[i] == h && h.game !in seen
    decreases es
  {
    if es != [] {
      var first := es[0].game != 0 && es[0].game !in seen;
      var known := if first then seen + {es[0].game} else seen;
      HeadsAreFirsts(es[1..], known);
      forall i | IsFirst(es, i) && es[i].game !in seen ensures es[i] in Heads(es, seen) {
        if i > 0 {
          assert es[1..][i - 1] == es[i] && es[0].game != es[i].game;
          assert IsFirst(es[1..], i - 1) by {
            forall j | 0 <= j < i - 1 ensures es[1..][j].game != es[i].game { assert es[1..][j] == es[j + 1]; }
          }
        }
      }
      forall h | h in Heads(es, seen) ensures exists i :: IsFirst(es, i) && es[i] == h && h.game !in seen {
        if h in Heads(es[1..], known) {
          var i :| IsFirst(es[1..], i) && es[1..][i] == h && h.game !in known;
          LaterFirst(es, i, seen);
        } else {
          assert IsFirst(es, 0);
        }
      }
    }
  }

  lemma LaterFirst(es: seq<ImportEntry>, i: int, seen: set<GameId>)
    requires es != [] && IsFirst(es[1..], i)
    requires es[0].game != es[1..][i].game
    ensures IsFirst(es, i + 1) && es[i + 1] == es[1..][i]
  {
    forall j | 0 <= j < i + 1 ensures es[j].game != es[i + 1].game {
      if j > 0 { assert es[1..][j - 1] == es[j]; }
    }
  }

  /**
   * A committed import has done to every game what the first entry that names it says, and left every
   * other row alone; no entries or more than 10000 are refused.
   */
  lemma ImportDoes(t: Tables, es: seq<ImportEntry>, now: Instant)
    requires Ready(t)
    ensures es == [] ==> ImportAll(t, es, now) == Err(Invalid("empty_import"))
    ensures |es| > 10000 ==> ImportAll(t, es, now) == Err(Invalid("too_many"))
    ensures ImportAll(t, es, now).Ok? ==>
              var r := ImportAll(t, es, now).value.tables;
              && (forall i | IsFirst(es, i) :: RowImported(t, es[i], r, now))
              && (forall g | forall i | 0 <= i < |es| :: es[i].game == 0 || es[i].game != g ::
                    RowOf(r, g) == RowOf(t, g))
  {
    hide Ready, ImportEach, Heads, RowImported;
    if ImportAll(t, es, now).Ok? {
      var hs := Heads(es, {});
      HeadsDistinct(es, {});
      HeadsAreFirsts(es, {});
      BatchRows(Batch(t, [], 0, 0, 0), hs, now);
      var r := ImportAll(t, es, now).value.tables;
      forall i | IsFirst(es, i) ensures RowImported(t, es[i], r, now) {
        assert es[i] in hs;
      }
      forall g | forall i | 0 <= i < |es| :: es[i].game == 0 || es[i].game != g ensures RowOf(r, g) == RowOf(t, g) {
        forall k | 0 <= k < |hs| ensures hs[k].game != g { assert hs[k] in hs; }
      }
    }
  }

  /** What an import reports: the games added, those changed, and the entries that changed nothing. */
  lemma {:induction false} BatchCounts(b: Batch, hs: seq<ImportEntry>, now: Instant)
    requires Ready(b.tables) && DistinctGames(hs) && ImportEach(b, hs, now).Ok?
    ensures var r := ImportEach(b, hs, now).value;
            && b.tables.items.Keys <= r.tables.items.Keys
            && r.added == b.added + |r.tables.items.Keys - b.tables.items.Keys|
            && |r.snaps| - |b.snaps| == (r.added - b.added) + (r.updated - b.updated)
            && (r.added - b.added) + (r.updated - b.updated) + (r.same - b.same) == |hs|
    decreases hs
  {
    hide ImportOne, Sound, Evolves, Covered, AllInOrder, AllLinked, Advances, Filled, Added;
    if hs == [] {
      assert b.tables.items.Keys - b.tables.items.Keys == {};
    } else {
      var b1 := FirstHead(b, hs, now);
      LinkedAt(b.tables, hs[0].game);
      ImportOneMoves(b.tables, hs[0], now);
      forall i, j | 0 <= i < j < |hs[1..]| ensures hs[1..][i].game != hs[1..][j].game {
        assert hs[1..][i] == hs[i + 1] && hs[1..][j] == hs[j + 1];
      }
      BatchCounts(b1, hs[1..], now);
      var r := ImportEach(b1, hs[1..], now).value;
      var o := ImportOne(b.tables, hs[0], now).value;
      OneCounted(b.tables, o.tables, hs[0].game, o.snap.Some? && o.added);
      KeysApart(b.tables.items.Keys, b1.tables.items.Keys, r.tables.items.Keys);
    }
  }

  lemma OneCounted(t: Tables, r: Tables, g: GameId, added: bool)
    requires OnlyItem(t, r, g) && (g in t.items ==> g in r.items) && (added <==> g !in t.items && g in r.items)
    ensures t.items.Keys <= r.items.Keys && |r.items.Keys - t.items.Keys| == if added then 1 else 0
  {
    var gained := r.items.Keys - t.items.Keys;
    forall h ensures h in gained <==> h in (if added then {g} else {}) {
      if h != g { assert h in t.items <==> h in r.items; }
    }
    forall h | h in t.items ensures h in r.items {
      if h != g { assert h in t.items <==> h in r.items; }
    }
    assert gained == if added then {g} else {};
  }

  lemma KeysApart(a: set<GameId>, b: set<GameId>, c: set<GameId>)
    requires a <= b <= c
    ensures |c - a| == |c - b| + |b - a|
  {
    assert c - a == (c - b) + (b - a);
  }
}
