// A client that keeps its copy of the library and syncs again and again
// (web/static/js/core/store.js): what it shows after any number of indexes
// along one history.
module LibraryClient {
  import opened Prelude
  import opened LibraryTypes
  import opened LibraryTables
  import opened LibraryImport
  import opened LibrarySync
  import opened LibraryHistory
  import opened LibraryInvariant
  import opened LibraryPlatforms

  datatype Client = Client(copy: map<GameId, Entry>, rev: nat)

  /** What happens until the client's next sync, and the index it gets then. */
  datatype Round = Round(steps: seq<Step>, idx: Index)

  /** The client shows the library, the platforms aside, and knows the revision. */
  ghost predicate InStep(db: Db, c: Client) {
    c.rev == RevOf(db.tables) && SameButPlatforms(c.copy, Library(db.tables))
  }

  function Synced(c: Client, idx: Index): Client {
    Client(Applied(c.copy, idx), idx.rev)
  }

  /** The library and the client after every round. */
  ghost function PlayedOut(db: Db, rounds: seq<Round>): Db
    decreases rounds
  {
    if rounds == [] then db else PlayedOut(Play(db, rounds[0].steps), rounds[1..])
  }

  function SyncedAll(c: Client, rounds: seq<Round>): Client
    decreases rounds
  {
    if rounds == [] then c else SyncedAll(Synced(c, rounds[0].idx), rounds[1..])
  }

  /** Each index is what the server answers to the revision the client holds by then. */
  ghost predicate Answered(db: Db, c: Client, rounds: seq<Round>)
    decreases rounds
  {
    rounds == [] ||
    var later := Play(db, rounds[0].steps);
    IsIndex(later.tables, c.rev, rounds[0].idx) && Answered(later, Synced(c, rounds[0].idx), rounds[1..])
  }

  /** The platforms game g had when an index last held its row, if one did. */
  ghost function LastSent(db: Db, rev: nat, rounds: seq<Round>, g: GameId): Option<seq<int>>
    decreases rounds
  {
    if rounds == [] then None
    else
      var later := Play(db, rounds[0].steps);
      var t := later.tables;
      var after := LastSent(later, rounds[0].idx.rev, rounds[1..], g);
      if after.Some? then after
      else if g in t.items && g in t.games && t.items[g].rev > rev then Some(t.games[g].platforms)
      else None
  }

  /** The platforms a client shows: as last sent, or as it had them at first. */
  ghost predicate ShowsLastSent(db: Db, c: Client, rounds: seq<Round>, copy: map<GameId, Entry>) {
    forall g | g in copy ::
      var sent := LastSent(db, c.rev, rounds, g);
      if sent.Some? then copy[g].gamePlatforms == sent.value
      else g in c.copy && copy[g].gamePlatforms == c.copy[g].gamePlatforms
  }

  /** After one index: a row sent brings its platforms along, another keeps those of the copy, which had it. */
  ghost predicate ShowsRound(t: Tables, c: Client, copy: map<GameId, Entry>) {
    forall g | g in copy ::
      && g in t.items && g in t.games
      && if t.items[g].rev > c.rev then copy[g].gamePlatforms == t.games[g].platforms
         else g in c.copy && copy[g].gamePlatforms == c.copy[g].gamePlatforms
  }

  lemma OneRound(db: Db, c: Client, round: Round)
    requires Inv(db) && InStep(db, c) && IsIndex(Play(db, round.steps).tables, c.rev, round.idx)
    ensures Inv(Play(db, round.steps)) && InStep(Play(db, round.steps), Synced(c, round.idx))
    ensures ShowsRound(Play(db, round.steps).tables, c, Synced(c, round.idx).copy)
  {
    hide Inv, Play, Applied, IsIndex, SameButPlatforms, ShowsAsSent, UpToDate, ShowsRound;
    var later := Play(db, round.steps);
    HistoryInvariant(db, round.steps);
    SyncFacts(db, later);
    SyncOverHistory(db, round.steps, c.copy, round.idx);
    hide Sound, Evolves, StepKeeps;
    RoundShows(db.tables, later.tables, c, Applied(c.copy, round.idx));
  }

  lemma RoundShows(a: Tables, b: Tables, c: Client, got: map<GameId, Entry>)
    requires Sound(a) && Sound(b) && Evolves(a, b) && c.rev == RevOf(a) && SameButPlatforms(c.copy, Library(a))
    requires ShowsAsSent(a, b, c.copy, got)
    ensures ShowsRound(b, c, got)
  {
    hide Library;
    LibraryIs(a);
    LibraryIs(b);
    hide Sound, Evolves;
    forall g | g in b.items && b.items[g].rev <= c.rev ensures g in c.copy {
      StillListed(a, b, g);
    }
  }

  lemma StillListed(a: Tables, b: Tables, g: GameId)
    requires Evolves(a, b) && g in b.items && b.items[g].rev <= RevOf(a)
    ensures g in a.items
  {
    assert KeptItem(a, b, g);
  }

  /**
   * However often a client syncs along a history, in step once it stays in step; and it shows every
   * game with the platforms it had when its row was last sent.
   */
  lemma {:induction false} SyncsConverge(db: Db, c: Client, rounds: seq<Round>)
    requires Inv(db) && InStep(db, c) && Answered(db, c, rounds)
    ensures InStep(PlayedOut(db, rounds), SyncedAll(c, rounds)) && Inv(PlayedOut(db, rounds))
    ensures ShowsLastSent(db, c, rounds, SyncedAll(c, rounds).copy)
    decreases rounds
  {
    hide Inv, InStep, Play, Applied, IsIndex;
    if rounds != [] {
      OneRound(db, c, rounds[0]);
      SyncsConverge(Play(db, rounds[0].steps), Synced(c, rounds[0].idx), rounds[1..]);
    }
  }

  /** The platforms a client is left with: as last sent, or as it had them at first. */
  ghost function Left(db: Db, c: Client, rounds: seq<Round>, g: GameId): Option<seq<int>> {
    var sent := LastSent(db, c.rev, rounds, g);
    if sent.Some? then sent else if g in c.copy then Some(c.copy[g].gamePlatforms) else None
  }

  /**
   * After any number of syncs the copy is exact exactly when no listed game has other platforms than
   * were last sent.
   */
  lemma SyncsExact(db: Db, c: Client, rounds: seq<Round>)
    requires Inv(db) && InStep(db, c) && Answered(db, c, rounds)
    ensures var t := PlayedOut(db, rounds).tables;
            SyncedAll(c, rounds).copy == Library(t) <==>
            forall g | g in t.items && g in t.games :: Left(db, c, rounds, g) == Some(t.games[g].platforms)
  {
    hide Play, Answered, SyncedAll, PlayedOut, LastSent;
    SyncsConverge(db, c, rounds);
    var t := PlayedOut(db, rounds).tables;
    LibraryIs(t);
    hide Library, Inv;
    LeftDecides(db, c, rounds, SyncedAll(c, rounds).copy, t);
  }

  lemma LeftDecides(db: Db, c: Client, rounds: seq<Round>, copy: map<GameId, Entry>, t: Tables)
    requires ShowsLastSent(db, c, rounds, copy) && SameButPlatforms(copy, Library(t))
    requires Library(t).Keys == t.items.Keys
    requires forall g | g in t.items :: g in t.games && Library(t)[g] == EntryOf(g, t.games[g], t.items[g])
    ensures copy == Library(t) <==>
            forall g | g in t.items && g in t.games :: Left(db, c, rounds, g) == Some(t.games[g].platforms)
  {
    hide LastSent, Library;
    forall g | g in t.items
      ensures g in copy && g in Library(t) && Left(db, c, rounds, g) == Some(copy[g].gamePlatforms)
      ensures Library(t)[g].gamePlatforms == t.games[g].platforms
    {
      assert g in Library(t).Keys;
    }
    if forall g | g in t.items && g in t.games :: Left(db, c, rounds, g) == Some(t.games[g].platforms) {
      forall g ensures (g in copy <==> g in Library(t)) && (g in Library(t) ==> copy[g] == Library(t)[g]) {}
    }
  }

  /**
   * A client that starts with nothing shows, after any number of syncs along any history, the library
   * with every game's platforms as last sent.
   */
  lemma NewClient(rounds: seq<Round>)
    requires Answered(EMPTY, Client(map[], 0), rounds)
    ensures InStep(PlayedOut(EMPTY, rounds), SyncedAll(Client(map[], 0), rounds))
    ensures var t := PlayedOut(EMPTY, rounds).tables;
            SyncedAll(Client(map[], 0), rounds).copy == Library(t) <==>
            forall g | g in t.items && g in t.games :: LastSent(EMPTY, 0, rounds, g) == Some(t.games[g].platforms)
  {
    hide Answered, PlayedOut, SyncedAll, LastSent, Inv;
    EmptyHolds();
    var c := Client(map[], 0);
    assert InStep(EMPTY, c);
    SyncsConverge(EMPTY, c, rounds);
    SyncsExact(EMPTY, c, rounds);
    hide InStep, Library;
    assert forall g :: Left(EMPTY, c, rounds, g) == LastSent(EMPTY, 0, rounds, g);
  }

  /** No edit of the catalog changed a listed game's platforms and nothing watched. */
  ghost predicate NeverQuietIn(db: Db, rounds: seq<Round>)
    decreases rounds
  {
    rounds == [] || (NeverQuiet(db, rounds[0].steps) && NeverQuietIn(Play(db, rounds[0].steps), rounds[1..]))
  }

  /** As long as there is none, a client that showed the library shows it after every sync, to the last column. */
  lemma {:induction false} SyncsUnlessQuiet(db: Db, c: Client, rounds: seq<Round>)
    requires Inv(db) && c == Client(Library(db.tables), RevOf(db.tables)) && Answered(db, c, rounds)
    requires NeverQuietIn(db, rounds)
    ensures var later := PlayedOut(db, rounds).tables; SyncedAll(c, rounds) == Client(Library(later), RevOf(later))
    decreases rounds
  {
    hide Inv, Play, Applied, Library, NeverQuiet;
    if rounds != [] {
      var later := Play(db, rounds[0].steps);
      SyncUnlessQuiet(db, rounds[0].steps, rounds[0].idx);
      HistoryInvariant(db, rounds[0].steps);
      assert rounds[0].idx.rev == RevOf(later.tables);
      hide IsIndex;
      SyncsUnlessQuiet(later, Synced(c, rounds[0].idx), rounds[1..]);
    }
  }
}
