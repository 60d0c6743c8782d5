// The library index (internal/library/index.go): the whole library, or what
// changed since a revision, and the copy an offline client keeps of it.
module LibrarySync {
  import opened Prelude
  import opened LibraryTypes
  import opened LibraryTables

  const INDEX_NOTES_CHARS := 140

  datatype Entry = Entry(
    id: GameId, name: string, status: Status, rating: int, minutes: int, updated: Instant, added: Instant,
    platforms: seq<string>, tags: seq<string>, release: int, ttb: int, cover: string, medium: Medium, notes: string,
    gamePlatforms: seq<int>)

  datatype Index = Index(rev: nat, full: bool, items: seq<Entry>, deleted: seq<GameId>)

  function Cover(g: Game): string {
    if g.localCover != "" then g.localCover else g.coverUrl
  }

  function EntryOf(id: GameId, g: Game, r: Row): Entry {
    Entry(id, g.name, r.status, r.rating, r.minutes, r.updatedAt, r.createdAt, r.owned, r.tags,
          g.release, g.ttb, Cover(g), r.medium, if |r.notes| <= INDEX_NOTES_CHARS then r.notes
          else r.notes[..INDEX_NOTES_CHARS],
          g.platforms)
  }

  /** The library as the index shows it. */
  function Library(t: Tables): map<GameId, Entry> {
    map g | g in t.items && g in t.games :: EntryOf(g, t.games[g], t.items[g])
  }

  /** ORDER BY updated_at DESC, game_id DESC. */
  predicate Before(a: Entry, b: Entry) {
    a.updated > b.updated || (a.updated == b.updated && a.id > b.id)
  }

  /** What Index answers: the rows after the revision asked for, newest first, and the tombstones after it. */
  ghost predicate IsIndex(t: Tables, since: int, idx: Index) {
    var from := if since > RevOf(t) then 0 else since;
    && idx.rev == RevOf(t) && idx.full == (from <= 0)
    && (forall i, j | 0 <= i < j < |idx.items| :: Before(idx.items[i], idx.items[j]))
    && (forall i | 0 <= i < |idx.items| ::
          var g := idx.items[i].id; g in Library(t) && idx.items[i] == Library(t)[g] && t.items[g].rev > from)
    && (forall g | g in Library(t) && t.items[g].rev > from :: Library(t)[g] in idx.items)
    && (forall g :: g in idx.deleted <==> !idx.full && g in t.tombs && t.tombs[g] > from)
  }

  // ---- The client ---------------------------------------------------------

  function Upserted(copy: map<GameId, Entry>, items: seq<Entry>): map<GameId, Entry> {
    if items == [] then copy
    else Upserted(copy, items[..|items| - 1])[items[|items| - 1].id := items[|items| - 1]]
  }

  /** How a client takes an index in: a full one replaces its copy, a delta upserts rows and then deletes. */
  function Applied(copy: map<GameId, Entry>, idx: Index): map<GameId, Entry> {
    if idx.full then Upserted(map[], idx.items)
    else Upserted(copy, idx.items) - (set g | g in idx.deleted)
  }

  /** Upserting rows that each show the library leaves the library's entry under every ID they name. */
  lemma {:induction false} UpsertedShows(copy: map<GameId, Entry>, items: seq<Entry>, lib: map<GameId, Entry>,
                                         g: GameId)
    requires forall i | 0 <= i < |items| :: items[i].id in lib && items[i] == lib[items[i].id]
    ensures g in lib && lib[g] in items && lib[g].id == g ==>
              g in Upserted(copy, items) && Upserted(copy, items)[g] == lib[g]
    ensures !(g in lib && lib[g] in items) ==>
              (g in Upserted(copy, items) <==> g in copy) && (g in copy ==> Upserted(copy, items)[g] == copy[g])
  {
    if items != [] {
      var front, e := items[..|items| - 1], items[|items| - 1];
      assert forall i | 0 <= i < |front| :: front[i] == items[i];
      UpsertedShows(copy, front, lib, g);
      assert items == front + [e];
      assert e in items && e.id in lib && e == lib[e.id];
    }
  }

  /** Two copies that differ in nothing but the platforms games came out on. */
  ghost predicate SameButPlatforms(a: map<GameId, Entry>, b: map<GameId, Entry>) {
    (forall g :: g in a <==> g in b) && forall g | g in a :: a[g] == b[g].(gamePlatforms := a[g].gamePlatforms)
  }

  /** No row of b that a client in step with a is not sent has other platforms in its copy. */
  ghost predicate UpToDate(a: Tables, b: Tables, copy: map<GameId, Entry>) {
    forall g | g in b.items && b.items[g].rev <= RevOf(a) && g in copy && g in b.games ::
      copy[g].gamePlatforms == b.games[g].platforms
  }

  /** The platforms shown after the index of b to a client that held copy and was in step with a. */
  function PlatformsAt(a: Tables, b: Tables, copy: map<GameId, Entry>, g: GameId): seq<int>
    requires g in b.items && g in b.games
  {
    if b.items[g].rev <= RevOf(a) && g in copy then copy[g].gamePlatforms else b.games[g].platforms
  }

  /** The copy shows b, with the platforms each row was last sent with. */
  ghost predicate ShowsAsSent(a: Tables, b: Tables, copy: map<GameId, Entry>, got: map<GameId, Entry>) {
    forall g :: (g in got <==> g in Library(b))
                && (g in Library(b) ==> got[g] == Library(b)[g].(gamePlatforms := PlatformsAt(a, b, copy, g)))
  }

  /**
   * Delta sync converges: a client whose copy showed an earlier point of a
   * run, the platforms aside, and applies the index since that revision, shows
   * the library as it is, the platforms aside: games_library_rev_au does not
   * watch them. A row that is sent brings its platforms along, another keeps
   * those of the copy, so the copy is exact exactly when it was up to date
   * about the rows not sent.
   */
  lemma SyncConverges(a: Tables, b: Tables, copy: map<GameId, Entry>, idx: Index)
    requires Sound(a) && Sound(b) && Evolves(a, b) && IsIndex(b, RevOf(a), idx) && SameButPlatforms(copy, Library(a))
    ensures SameButPlatforms(Applied(copy, idx), Library(b))
    ensures ShowsAsSent(a, b, copy, Applied(copy, idx))
    ensures Applied(copy, idx) == Library(b) <==> UpToDate(a, b, copy)
  {
    hide Library, Applied, IsIndex, Sound, Evolves, SameButPlatforms;
    LibraryIs(b);
    forall g
      ensures g in Applied(copy, idx) <==> g in Library(b)
      ensures g in Library(b) ==>
                Applied(copy, idx)[g] == Library(b)[g].(gamePlatforms := PlatformsAt(a, b, copy, g))
    {
      ItemInSync(a, b, copy, idx, g);
    }
    PlatformsDecide(a, b, copy, Applied(copy, idx));
  }

  lemma LibraryIs(t: Tables)
    requires Sound(t)
    ensures Library(t).Keys == t.items.Keys
    ensures forall g | g in t.items :: g in t.games && Library(t)[g] == EntryOf(g, t.games[g], t.items[g])
  {
    forall g | g in t.items ensures g in t.games { ItemIsSound(t, g); }
    hide Sound;
  }

  /** A copy that shows b but for the platforms of rows not sent shows all of b exactly when those are the same. */
  lemma PlatformsDecide(a: Tables, b: Tables, copy: map<GameId, Entry>, got: map<GameId, Entry>)
    requires Library(b).Keys == b.items.Keys
    requires forall g | g in b.items :: g in b.games && Library(b)[g] == EntryOf(g, b.games[g], b.items[g])
    requires ShowsAsSent(a, b, copy, got)
    ensures SameButPlatforms(got, Library(b))
    ensures got == Library(b) <==> UpToDate(a, b, copy)
  {
    hide Library;
    if UpToDate(a, b, copy) {
      forall g | g in Library(b) ensures got[g] == Library(b)[g] {
        assert PlatformsAt(a, b, copy, g) == b.games[g].platforms;
      }
      forall g ensures (g in got <==> g in Library(b)) && (g in Library(b) ==> got[g] == Library(b)[g]) {}
    }
    if got == Library(b) {
      forall g | g in b.items && b.items[g].rev <= RevOf(a) && g in copy && g in b.games
        ensures copy[g].gamePlatforms == b.games[g].platforms
      {
        assert g in got && got[g].gamePlatforms == PlatformsAt(a, b, copy, g);
      }
    }
  }

  lemma ItemInSync(a: Tables, b: Tables, copy: map<GameId, Entry>, idx: Index, g: GameId)
    requires Sound(a) && Sound(b) && Evolves(a, b) && IsIndex(b, RevOf(a), idx) && SameButPlatforms(copy, Library(a))
    ensures var lib := Library(b);
            var got := Applied(copy, idx);
            && (g in got <==> g in lib)
            && (g in lib ==> got[g] == lib[g].(gamePlatforms := PlatformsAt(a, b, copy, g)))
  {
    var lib := Library(b);
    assert g in b.items ==> g in b.games && RowSound(b, b.items[g]);
    assert g in a.items ==> g in a.games && RowSound(a, a.items[g]);
    if idx.full {
      UpsertedShows(map[], idx.items, lib, g);
    } else {
      UpsertedShows(copy, idx.items, lib, g);
      if g in b.items && b.items[g].rev <= RevOf(a) {
        assert KeptItem(a, b, g);
        assert Watched(a.games[g]) == Watched(b.games[g]);
        assert lib[g] !in idx.items;
      }
      if g !in b.items && g in a.items {
        assert Buried(a, b, g);
      }
    }
  }

  /** At the same revision of one history a copy shows what it showed: a client may skip the index. */
  lemma SameRevSameLibrary(a: Tables, b: Tables, copy: map<GameId, Entry>)
    requires Sound(a) && Sound(b) && Evolves(a, b) && RevOf(a) == RevOf(b) && SameButPlatforms(copy, Library(a))
    ensures SameButPlatforms(copy, Library(b))
    ensures copy == Library(b) <==> UpToDate(a, b, copy)
  {
    hide Library, Sound, Evolves, SameButPlatforms;
    LibraryIs(b);
    forall g
      ensures g in copy <==> g in Library(b)
      ensures g in Library(b) ==> copy[g] == Library(b)[g].(gamePlatforms := PlatformsAt(a, b, copy, g))
    {
      ItemAtSameRev(a, b, copy, g);
    }
    PlatformsDecide(a, b, copy, copy);
  }

  lemma ItemAtSameRev(a: Tables, b: Tables, copy: map<GameId, Entry>, g: GameId)
    requires Sound(a) && Sound(b) && Evolves(a, b) && RevOf(a) == RevOf(b) && SameButPlatforms(copy, Library(a))
    ensures g in copy <==> g in Library(b)
    ensures g in Library(b) ==>
              g in b.items && g in b.games && copy[g] == Library(b)[g].(gamePlatforms := PlatformsAt(a, b, copy, g))
  {
    hide Library;
    LibraryIs(a);
    LibraryIs(b);
    if g in b.items {
      ItemIsSound(b, g);
      assert KeptItem(a, b, g);
      assert Watched(a.games[g]) == Watched(b.games[g]);
    } else {
      assert g in a.items ==> Buried(a, b, g);
    }
  }

  /** No game whose row a client in step with a is not sent has other platforms in b. */
  ghost predicate PlatformsSent(a: Tables, b: Tables) {
    forall g | g in b.items && b.items[g].rev <= RevOf(a) && g in a.games && g in b.games ::
      a.games[g].platforms == b.games[g].platforms
  }

  /** A client that showed all of a is up to date exactly when no platforms changed unsent. */
  lemma ExactUpToDate(a: Tables, b: Tables)
    requires Sound(a) && Evolves(a, b)
    ensures UpToDate(a, b, Library(a)) <==> PlatformsSent(a, b)
  {
    hide Library;
    LibraryIs(a);
    forall g | g in b.items && b.items[g].rev <= RevOf(a) ensures g in a.items && g in a.games {
      assert KeptItem(a, b, g);
      ItemIsSound(a, g);
    }
    hide Sound, Evolves;
  }

  /** A client ahead of the server, or with nothing yet, gets the whole library whatever it held. */
  lemma FullSnapshot(t: Tables, since: int, idx: Index, copy: map<GameId, Entry>)
    requires Sound(t) && IsIndex(t, since, idx) && (since <= 0 || since > RevOf(t))
    ensures idx.full && Applied(copy, idx) == Library(t)
  {
    var lib := Library(t);
    forall g ensures (g in Applied(copy, idx) <==> g in lib) && (g in lib ==> Applied(copy, idx)[g] == lib[g]) {
      assert g in t.items ==> RowSound(t, t.items[g]);
      UpsertedShows(map[], idx.items, lib, g);
    }
  }

  /**
   * What an index says, column by column: each entry is its game's row and catalog game, changed
   * after the revision asked for, in the order of their last writing.
   */
  lemma IndexSays(t: Tables, since: int, idx: Index, i: nat)
    requires Sound(t) && IsIndex(t, since, idx) && i < |idx.items|
    ensures var e := idx.items[i];
            && e.id in t.items && e.id in t.games
            && var row, game := t.items[e.id], t.games[e.id];
            && e.name == game.name && e.release == game.release && e.ttb == game.ttb
            && e.gamePlatforms == game.platforms
            && e.cover == (if game.localCover == "" then game.coverUrl else game.localCover)
            && e.status == row.status && e.rating == row.rating && e.minutes == row.minutes && e.medium == row.medium
            && e.updated == row.updatedAt && e.added == row.createdAt
            && e.platforms == row.owned && e.tags == row.tags
            && e.notes <= row.notes && |e.notes| == (if |row.notes| < 140 then |row.notes| else 140)
            && (0 < since <= RevOf(t) ==> since < row.rev)
    ensures forall j | i < j < |idx.items| ::
              || idx.items[j].updated < idx.items[i].updated
              || (idx.items[j].updated == idx.items[i].updated && idx.items[j].id < idx.items[i].id)
  {
    LibraryIs(t);
    hide Sound;
  }

  /** Which rows and deletions it holds, and which revision it brings the client to. */
  lemma IndexHolds(t: Tables, since: int, idx: Index, g: GameId)
    requires Sound(t) && IsIndex(t, since, idx)
    ensures idx.rev == (if t.rev.Some? then t.rev.value else 0)
    ensures idx.full <==> since <= 0 || since > idx.rev
    ensures (exists e <- idx.items :: e.id == g) <==> g in t.items && (idx.full || t.items[g].rev > since)
    ensures g in idx.deleted <==> !idx.full && g in t.tombs && t.tombs[g] > since
  {
    LibraryIs(t);
    if g in t.items && (idx.full || t.items[g].rev > since) {
      ItemIsSound(t, g);
      assert Library(t)[g] in idx.items;
    }
    hide Sound;
  }

  /** No row is listed twice, and none is both listed and deleted. */
  lemma IndexDisjoint(t: Tables, since: int, idx: Index)
    requires Sound(t) && IsIndex(t, since, idx)
    ensures forall i, j | 0 <= i < j < |idx.items| :: idx.items[i].id != idx.items[j].id
    ensures forall i | 0 <= i < |idx.items| :: idx.items[i].id !in idx.deleted
  {
    forall i | 0 <= i < |idx.items| ensures idx.items[i].id !in idx.deleted {
      assert idx.items[i].id in t.items;
    }
    forall i, j | 0 <= i < j < |idx.items| ensures idx.items[i].id != idx.items[j].id {
      assert Before(idx.items[i], idx.items[j]);
    }
  }

  predicate IsNewest(es: set<Entry>, e: Entry) {
    e in es && forall f | f in es && f != e :: Before(e, f)
  }

  /** Entries are told apart by ID, so one of any some is the newest. */
  lemma {:induction false} HasNewest(es: set<Entry>)
    requires es != {} && forall e, f | e in es && f in es && e != f :: e.id != f.id
    ensures exists e :: IsNewest(es, e)
  {
    var e :| e in es;
    var rest := es - {e};
    assert forall f | f in es :: f == e || f in rest;
    if rest == {} {
      assert IsNewest(es, e);
    } else {
      HasNewest(rest);
      var m :| IsNewest(rest, m);
      assert Before(e, m) || Before(m, e);
      assert IsNewest(es, if Before(e, m) then e else m);
    }
  }

  /** ORDER BY updated_at DESC, game_id DESC. */
  method NewestFirst(es: set<Entry>) returns (rows: seq<Entry>)
    requires forall e, f | e in es && f in es && e != f :: e.id != f.id
    ensures forall i, j | 0 <= i < j < |rows| :: Before(rows[i], rows[j])
    ensures forall e :: e in rows <==> e in es
  {
    rows := [];
    var left := es;
    while left != {}
      invariant left <= es
      invariant forall i, j | 0 <= i < j < |rows| :: Before(rows[i], rows[j])
      invariant forall i, e | 0 <= i < |rows| && e in left :: Before(rows[i], e)
      invariant forall e :: e in es <==> e in rows || e in left
      decreases |left|
    {
      HasNewest(left);
      var e :| IsNewest(left, e);
      rows := rows + [e];
      left := left - {e};
    }
  }
}
