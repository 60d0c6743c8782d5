// The activity feed (internal/social/feed.go): one loop groups adjacent rows
// into entries and leaves an id cursor; following it covers every event once.
module ActivityFeed {
  const FAR: int := 0x4000_0000_0000_0000

  datatype Kind = Logged | Added | Wishlisted | Listed | Reviewed | Other(name: string)

  /**
   * A visible activity row; the day is the date part of its time, minutes what its data carries, game
   * 0 when it has none.
   */
  datatype Event = Event(id: int, kind: Kind, person: string, day: int, ref: int, game: int, minutes: int)

  /** A line of the feed: the fields of its first event, the games named and the minutes summed. */
  datatype Entry = Entry(head: Event, games: seq<int>, minutes: int)

  datatype Page = Page(entries: seq<Entry>, next: int)

  predicate Groupable(k: Kind) {
    k.Logged? || k.Added? || k.Wishlisted? || k.Listed?
  }

  /** An event joins the entry that starts with another. */
  predicate Joins(head: Event, e: Event) {
    && Groupable(e.kind)
    && head.kind == e.kind
    && head.person == e.person
    && head.day == e.day
    && (e.kind.Listed? ==> head.ref == e.ref)
  }

  function LoggedMinutes(e: Event): int {
    if e.kind.Logged? then e.minutes else 0
  }

  function Limit(limit: int): (r: nat)
    ensures 1 <= r <= 50
  {
    if limit <= 0 || limit > 50 then 20 else limit
  }

  function Before(cursor: int): int {
    if cursor <= 0 then FAR else cursor
  }

  function Start(e: Event): Entry {
    Entry(e, if e.game != 0 then [e.game] else [], LoggedMinutes(e))
  }

  function Join(x: Entry, e: Event): Entry {
    x.(minutes := x.minutes + LoggedMinutes(e),
       games := if e.game != 0 && e.game !in x.games then x.games + [e.game] else x.games)
  }

  // ---- What a page is -------------------------------------------------------

  /** The rows below a cursor, of rows in descending order of id. */
  function Below(events: seq<Event>, before: int): seq<Event> {
    if events == [] then []
    else if events[0].id < before then events
    else Below(events[1..], before)
  }

  function Rows(events: seq<Event>, cursor: int, limit: int): seq<Event> {
    var rest := Below(events, Before(cursor));
    if |rest| <= 4 * Limit(limit) then rest else rest[..4 * Limit(limit)]
  }

  predicate Continues(runs: seq<seq<Event>>, e: Event) {
    runs != [] && runs[|runs| - 1] != [] && Joins(runs[|runs| - 1][0], e)
  }

  function Extend(runs: seq<seq<Event>>, e: Event): seq<seq<Event>> {
    if Continues(runs, e) then runs[..|runs| - 1] + [runs[|runs| - 1] + [e]] else runs + [[e]]
  }

  /** The runs of rows a page shows: it stops before the row that would open one run too many. */
  function Scan(rows: seq<Event>, limit: nat, runs: seq<seq<Event>>): seq<seq<Event>> {
    if rows == [] || (!Continues(runs, rows[0]) && |runs| == limit) then runs
    else Scan(rows[1..], limit, Extend(runs, rows[0]))
  }

  function Flat(runs: seq<seq<Event>>): seq<Event> {
    if runs == [] then [] else Flat(runs[..|runs| - 1]) + runs[|runs| - 1]
  }

  function Runs(events: seq<Event>, cursor: int, limit: int): seq<seq<Event>> {
    Scan(Rows(events, cursor, limit), Limit(limit), [])
  }

  function Summary(run: seq<Event>): Entry
    requires run != []
  {
    if |run| == 1 then Start(run[0]) else Join(Summary(run[..|run| - 1]), run[|run| - 1])
  }

  predicate NoEmpty(runs: seq<seq<Event>>) {
    forall i {:trigger runs[i]} :: 0 <= i < |runs| ==> runs[i] != []
  }

  function Summaries(runs: seq<seq<Event>>): (entries: seq<Entry>)
    requires NoEmpty(runs)
    ensures |entries| == |runs|
  {
    if runs == [] then []
    else
      var init, last := runs[..|runs| - 1], runs[|runs| - 1];
      Summaries(init) + [Summary(last)]
  }

  function NextCursor(rows: seq<Event>, used: seq<Event>, full: bool, limit: int): int {
    if (|rows| < 4 * Limit(limit) && !full) || used == [] then 0 else used[|used| - 1].id
  }

  function FeedPage(events: seq<Event>, cursor: int, limit: int): Page {
    var runs := Runs(events, cursor, limit);
    ScanShape(Rows(events, cursor, limit), Limit(limit), []);
    Page(Summaries(runs), NextCursor(Rows(events, cursor, limit), Flat(runs), |runs| == Limit(limit), limit))
  }

  // ---- The loop -------------------------------------------------------------

  method Feed(events: seq<Event>, cursor: int, limit: int) returns (out: seq<Entry>, next: int)
    ensures Page(out, next) == FeedPage(events, cursor, limit)
  {
    hide Summary, Flat, Below, Extend, Summaries, NoEmpty;
    Empty();
    var lim := Limit(limit);
    var rows := Rows(events, cursor, limit);
    out, next := [], 0;
    ghost var runs: seq<seq<Event>> := [];
    var n := 0;
    while n < |rows|
      invariant 0 <= n <= |rows|
      invariant NoEmpty(runs) && |runs| <= lim
      invariant out == Summaries(runs)
      invariant next == if Flat(runs) == [] then 0 else Flat(runs)[|Flat(runs)| - 1].id
      invariant Scan(rows, lim, []) == Scan(rows[n..], lim, runs)
      invariant |rows| <= 4 * lim
    {
      var e := rows[n];
      assert rows[n..][0] == e && rows[n..][1..] == rows[n + 1..];
      n := n + 1;
      var k := |out| - 1;
      LastHead(runs);
      if k >= 0 && Groupable(e.kind) && out[k].head.kind == e.kind && out[k].head.person == e.person &&
         out[k].head.day == e.day && (e.kind != Listed || out[k].head.ref == e.ref)
      {
        JoinLast(runs, e);
        out := out[k := Join(out[k], e)];
        runs := Extend(runs, e);
        next := e.id;
        continue;
      }
      assert !Continues(runs, e);
      if |out| == lim {
        break;
      }
      OpenRun(runs, e);
      out := out + [Start(e)];
      runs := Extend(runs, e);
      next := e.id;
    }
    assert n == |rows| ==> rows[n..] == [];
    if n < 4 * lim && |out| < lim {
      next := 0;
    }
  }

  lemma Empty()
    ensures Flat([]) == [] && NoEmpty([]) && Summaries([]) == []
  {
  }

  lemma {:induction false} LastHead(runs: seq<seq<Event>>)
    requires NoEmpty(runs)
    ensures runs != [] ==> runs[|runs| - 1] != [] && Summaries(runs)[|runs| - 1].head == runs[|runs| - 1][0]
  {
    if runs != [] {
      SummaryHead(runs[|runs| - 1]);
    }
  }

  lemma {:induction false} SummaryHead(run: seq<Event>)
    requires run != []
    ensures Summary(run).head == run[0]
  {
    if |run| > 1 {
      SummaryHead(run[..|run| - 1]);
    }
  }

  lemma JoinLast(runs: seq<seq<Event>>, e: Event)
    requires NoEmpty(runs) && Continues(runs, e)
    ensures NoEmpty(Extend(runs, e)) && |Extend(runs, e)| == |runs|
    ensures Summaries(Extend(runs, e)) == Summaries(runs)[|runs| - 1 := Join(Summaries(runs)[|runs| - 1], e)]
    ensures Flat(Extend(runs, e)) == Flat(runs) + [e]
  {
    var last := runs[|runs| - 1];
    assert (last + [e])[..|last|] == last;
    assert Summary(last + [e]) == Join(Summary(last), e);
    assert Extend(runs, e)[..|runs| - 1] == runs[..|runs| - 1];
  }

  lemma OpenRun(runs: seq<seq<Event>>, e: Event)
    requires NoEmpty(runs) && !Continues(runs, e)
    ensures NoEmpty(Extend(runs, e)) && |Extend(runs, e)| == |runs| + 1
    ensures Summaries(Extend(runs, e)) == Summaries(runs) + [Start(e)]
    ensures Flat(Extend(runs, e)) == Flat(runs) + [e]
  {
    assert Extend(runs, e)[..|runs|] == runs;
  }

  // ---- Shape of the runs of a page -----------------------------------------

  /** Every event of a run joins its first; a run of two or more is of a groupable kind. */
  ghost predicate Grouped(run: seq<Event>) {
    run != [] && forall i :: 0 < i < |run| ==> Joins(run[0], run[i])
  }

  /** Neighbouring runs could not have been one. */
  ghost predicate Apart(runs: seq<seq<Event>>) {
    forall i {:trigger runs[i]} ::
      0 < i < |runs| && runs[i - 1] != [] && runs[i] != [] ==> !Joins(runs[i - 1][0], runs[i][0])
  }

  lemma {:induction false} ScanShape(rows: seq<Event>, limit: nat, runs: seq<seq<Event>>)
    requires NoEmpty(runs) && |runs| <= limit
    ensures NoEmpty(Scan(rows, limit, runs)) && |Scan(rows, limit, runs)| <= limit
    ensures |runs| <= |Scan(rows, limit, runs)|
    decreases rows
  {
    if rows != [] && (Continues(runs, rows[0]) || |runs| < limit) {
      ExtendShape(runs, rows[0]);
      ScanShape(rows[1..], limit, Extend(runs, rows[0]));
    }
  }

  lemma ExtendShape(runs: seq<seq<Event>>, e: Event)
    requires NoEmpty(runs)
    ensures NoEmpty(Extend(runs, e))
  {
  }

  ghost predicate WellGrouped(runs: seq<seq<Event>>) {
    Apart(runs) && forall i {:trigger runs[i]} :: 0 <= i < |runs| ==> Grouped(runs[i])
  }

  lemma JoinGroups(runs: seq<seq<Event>>, e: Event)
    requires WellGrouped(runs) && Continues(runs, e)
    ensures WellGrouped(Extend(runs, e))
  {
    hide Joins;
    var last := runs[|runs| - 1];
    assert Grouped(last);
    assert Grouped(last + [e]);
  }

  lemma OpenGroups(runs: seq<seq<Event>>, e: Event)
    requires WellGrouped(runs) && !Continues(runs, e)
    ensures WellGrouped(Extend(runs, e))
  {
    hide Joins;
    assert Grouped([e]);
    assert runs != [] ==> Grouped(runs[|runs| - 1]);
  }

  lemma ExtendGroups(runs: seq<seq<Event>>, e: Event)
    requires WellGrouped(runs)
    ensures WellGrouped(Extend(runs, e)) && Flat(Extend(runs, e)) == Flat(runs) + [e]
  {
    assert NoEmpty(runs);
    hide WellGrouped, Continues, Extend, Flat;
    if Continues(runs, e) {
      JoinLast(runs, e);
      JoinGroups(runs, e);
    } else {
      OpenRun(runs, e);
      OpenGroups(runs, e);
    }
  }

  /** A page shows a prefix of its rows, grouped as far as it goes, and all of them unless it is full. */
  lemma {:induction false} ScanCovers(rows: seq<Event>, limit: nat, runs: seq<seq<Event>>)
    requires WellGrouped(runs) && |runs| <= limit
    ensures WellGrouped(Scan(rows, limit, runs))
    ensures Flat(runs) <= Flat(Scan(rows, limit, runs)) <= Flat(runs) + rows
    ensures |Scan(rows, limit, runs)| < limit ==> Flat(Scan(rows, limit, runs)) == Flat(runs) + rows
    ensures rows != [] && |runs| < limit ==> |Flat(Scan(rows, limit, runs))| > |Flat(runs)|
    decreases rows
  {
    hide WellGrouped, Flat, Extend, Continues;
    if rows != [] && (Continues(runs, rows[0]) || |runs| < limit) {
      ExtendGroups(runs, rows[0]);
      ExtendLength(runs, rows[0]);
      ScanCovers(rows[1..], limit, Extend(runs, rows[0]));
      assert Flat(runs) + [rows[0]] + rows[1..] == Flat(runs) + rows;
    }
  }

  lemma ExtendLength(runs: seq<seq<Event>>, e: Event)
    ensures |Extend(runs, e)| == if Continues(runs, e) then |runs| else |runs| + 1
  {
  }

  // ---- Following the cursor -------------------------------------------------

  /** Rows as the query returns them: ids positive, descending. */
  ghost predicate Descending(events: seq<Event>) {
    && (forall i :: 0 <= i < |events| ==> 0 < events[i].id < FAR)
    && (forall i, j :: 0 <= i < j < |events| ==> events[i].id > events[j].id)
  }

  lemma {:induction false} BelowSuffix(events: seq<Event>, before: int)
    requires Descending(events)
    ensures |Below(events, before)| <= |events|
    ensures Below(events, before) == events[|events| - |Below(events, before)|..]
    ensures forall e <- events :: e in Below(events, before) <==> e.id < before
  {
    if events != [] && events[0].id >= before {
      BelowSuffix(events[1..], before);
      assert forall e <- events :: e == events[0] || e in events[1..];
    }
  }

  /** Taking the rows below the k-th leaves those after it. */
  lemma {:induction false} BelowAt(events: seq<Event>, k: nat)
    requires Descending(events) && k < |events|
    ensures Below(events, events[k].id) == events[k + 1..]
  {
    if k > 0 {
      BelowAt(events[1..], k - 1);
    } else if |events| > 1 {
      assert Below(events[1..], events[0].id) == events[1..];
    }
  }

  /**
   * A page shows the first of the rows below its cursor: all of them unless it is full, at least one
   * if there are any.
   */
  lemma PageShows(events: seq<Event>, cursor: int, limit: int)
    ensures var rest := Below(events, Before(cursor));
            var rows := Rows(events, cursor, limit);
            var runs := Runs(events, cursor, limit);
            && WellGrouped(runs)
            && |runs| <= Limit(limit)
            && Flat(runs) <= rows <= rest
            && (|runs| < Limit(limit) ==> Flat(runs) == rows)
            && (rows != [] ==> Flat(runs) != [])
            && (|rows| < 4 * Limit(limit) ==> rows == rest)
  {
    hide Scan, Flat, WellGrouped, Below;
    NothingGrouped();
    Empty();
    var rows := Rows(events, cursor, limit);
    ScanCovers(rows, Limit(limit), []);
    ScanShape(rows, Limit(limit), []);
    assert [] + rows == rows;
  }

  /** What remains below a page's cursor: the rows the page did not show, or nothing at the end. */
  lemma PageLeaves(events: seq<Event>, cursor: int, limit: int)
    requires Descending(events)
    ensures var rest := Below(events, Before(cursor));
            var used := Flat(Runs(events, cursor, limit));
            var next := FeedPage(events, cursor, limit).next;
            && used <= rest
            && WellGrouped(Runs(events, cursor, limit))
            && (next == 0 ==> used == rest)
            && (next != 0 ==> used != [] && Below(events, Before(next)) == rest[|used|..])
  {
    hide Flat, WellGrouped, Summaries, Below, Rows, Runs;
    var rest := Below(events, Before(cursor));
    var used := Flat(Runs(events, cursor, limit));
    PageShows(events, cursor, limit);
    BelowSuffix(events, Before(cursor));
    var start := |events| - |rest|;
    if used != [] {
      var k := start + |used| - 1;
      assert rest[|used| - 1] == used[|used| - 1] == events[k];
      BelowAt(events, k);
      assert events[k + 1..] == rest[|used|..];
    }
  }

  lemma NothingGrouped()
    ensures WellGrouped([])
  {
  }

  /** The pages got by following the cursor from one until it is 0, with a limit chosen for each. */
  ghost function Pages(events: seq<Event>, cursor: int, limits: nat -> int, i: nat): seq<Page>
    requires Descending(events)
    decreases |Below(events, Before(cursor))|
  {
    var page := FeedPage(events, cursor, limits(i));
    PageLeaves(events, cursor, limits(i));
    if page.next == 0 then [page] else [page] + Pages(events, page.next, limits, i + 1)
  }

  /** The events behind the entries of those pages, page by page. */
  ghost function PageRuns(events: seq<Event>, cursor: int, limits: nat -> int, i: nat): seq<seq<seq<Event>>>
    requires Descending(events)
    decreases |Below(events, Before(cursor))|
  {
    var page := FeedPage(events, cursor, limits(i));
    PageLeaves(events, cursor, limits(i));
    [Runs(events, cursor, limits(i))] + if page.next == 0 then [] else PageRuns(events, page.next, limits, i + 1)
  }

  ghost function FlatPages(pages: seq<seq<seq<Event>>>): seq<Event> {
    if pages == [] then [] else Flat(pages[0]) + FlatPages(pages[1..])
  }

  /**
   * A page's entries stand for runs of adjacent events, each run of one person, kind and day, and no
   * two neighbours that could be one.
   */
  ghost predicate Shows(page: Page, runs: seq<seq<Event>>, limit: int) {
    && WellGrouped(runs)
    && |runs| <= Limit(limit)
    && NoEmpty(runs)
    && page.entries == Summaries(runs)
  }

  lemma PageEntries(events: seq<Event>, cursor: int, limit: int)
    ensures Shows(FeedPage(events, cursor, limit), Runs(events, cursor, limit), limit)
  {
    hide Scan, WellGrouped;
    PageShows(events, cursor, limit);
    ScanShape(Rows(events, cursor, limit), Limit(limit), []);
  }

  /**
   * Following the cursor ends, and the runs behind the entries of all its pages put end to end are the
   * visible events: each in one entry of one page.
   */
  lemma {:induction false} PagingCovers(events: seq<Event>, cursor: int, limits: nat -> int, i: nat)
    requires Descending(events)
    ensures var pages := Pages(events, cursor, limits, i);
            var runs := PageRuns(events, cursor, limits, i);
            && |pages| == |runs|
            && (forall p {:trigger pages[p]} :: 0 <= p < |pages| ==> Shows(pages[p], runs[p], limits(i + p)))
            && FlatPages(runs) == Below(events, Before(cursor))
            && pages[|pages| - 1].next == 0
    decreases |Below(events, Before(cursor))|
  {
    hide Flat, Below, Rows, Runs, Descending, FeedPage, Shows;
    var page := FeedPage(events, cursor, limits(i));
    PageLeaves(events, cursor, limits(i));
    PageEntries(events, cursor, limits(i));
    var runs := PageRuns(events, cursor, limits, i);
    var pages := Pages(events, cursor, limits, i);
    if page.next != 0 {
      PagingCovers(events, page.next, limits, i + 1);
      var later, laterRuns := Pages(events, page.next, limits, i + 1), PageRuns(events, page.next, limits, i + 1);
      hide PageRuns, Pages;
      assert pages == [page] + later && runs == [Runs(events, cursor, limits(i))] + laterRuns && runs[1..] == laterRuns;
      ShowsShift(page, Runs(events, cursor, limits(i)), later, laterRuns, limits, i);
    }
  }

  /** One page in front of others. */
  lemma ShowsShift(page: Page, run: seq<seq<Event>>, later: seq<Page>, laterRuns: seq<seq<seq<Event>>>,
                   limits: nat -> int, i: nat)
    requires |later| == |laterRuns| && Shows(page, run, limits(i))
    requires forall p {:trigger later[p]} :: 0 <= p < |later| ==> Shows(later[p], laterRuns[p], limits(i + 1 + p))
    ensures var pages, runs := [page] + later, [run] + laterRuns;
            forall p {:trigger pages[p]} :: 0 <= p < |pages| ==> Shows(pages[p], runs[p], limits(i + p))
  {
    hide Shows;
    var pages, runs := [page] + later, [run] + laterRuns;
    forall p {:trigger pages[p]} | 0 <= p < |pages|
      ensures Shows(pages[p], runs[p], limits(i + p))
    {
      if p > 0 {
        assert pages[p] == later[p - 1] && runs[p] == laterRuns[p - 1];
        assert i + 1 + (p - 1) == i + p;
      }
    }
  }

  /** From the first page on, all visible events are covered. */
  lemma FeedIsComplete(events: seq<Event>, limits: nat -> int)
    requires Descending(events)
    ensures FlatPages(PageRuns(events, 0, limits, 0)) == events
  {
    PagingCovers(events, 0, limits, 0);
    BelowSuffix(events, FAR);
    if events != [] {
      assert events[0] in Below(events, FAR);
    }
  }

  // ---- Minutes and games ----------------------------------------------------

  ghost function Minutes(events: seq<Event>): int {
    if events == [] then 0 else LoggedMinutes(events[0]) + Minutes(events[1..])
  }

  ghost function EntryMinutes(entries: seq<Entry>): int {
    if entries == [] then 0 else EntryMinutes(entries[..|entries| - 1]) + entries[|entries| - 1].minutes
  }

  ghost function PageMinutes(pages: seq<Page>): int {
    if pages == [] then 0 else EntryMinutes(pages[0].entries) + PageMinutes(pages[1..])
  }

  lemma {:induction false} MinutesAppend(a: seq<Event>, b: seq<Event>)
    ensures Minutes(a + b) == Minutes(a) + Minutes(b)
  {
    if a == [] {
      assert a + b == b;
    } else {
      assert (a + b)[1..] == a[1..] + b;
      MinutesAppend(a[1..], b);
    }
  }

  /** An entry stands for its run: the first event's fields, the sum of the minutes, and each game once. */
  lemma {:induction false} SummaryMeaning(run: seq<Event>)
    requires run != []
    ensures Summary(run).minutes == Minutes(run)
    ensures forall g :: g in Summary(run).games <==> g != 0 && exists e <- run :: e.game == g
    ensures forall i, j :: 0 <= i < j < |Summary(run).games| ==> Summary(run).games[i] != Summary(run).games[j]
  {
    if |run| > 1 {
      var init, e := run[..|run| - 1], run[|run| - 1];
      SummaryMeaning(init);
      assert run == init + [e];
      MinutesAppend(init, [e]);
      assert forall x :: x in run <==> x in init || x == e;
    }
  }

  lemma {:induction false} RunMinutes(runs: seq<seq<Event>>)
    requires NoEmpty(runs)
    ensures EntryMinutes(Summaries(runs)) == Minutes(Flat(runs))
  {
    if runs != [] {
      var init, last := runs[..|runs| - 1], runs[|runs| - 1];
      assert NoEmpty(init);
      RunMinutes(init);
      SummaryMeaning(last);
      MinutesAppend(Flat(init), last);
    }
  }

  lemma {:induction false} PagesMinutes(pages: seq<Page>, runs: seq<seq<seq<Event>>>, limits: nat -> int, i: nat)
    requires |pages| == |runs|
    requires forall p {:trigger pages[p]} :: 0 <= p < |pages| ==> Shows(pages[p], runs[p], limits(i + p))
    ensures PageMinutes(pages) == Minutes(FlatPages(runs))
  {
    if pages != [] {
      forall p {:trigger pages[1..][p]} | 0 <= p < |pages| - 1
        ensures Shows(pages[1..][p], runs[1..][p], limits(i + 1 + p))
      {
        assert pages[1..][p] == pages[p + 1] && i + 1 + p == i + (p + 1);
      }
      hide Summaries, WellGrouped;
      PagesMinutes(pages[1..], runs[1..], limits, i + 1);
      assert Shows(pages[0], runs[0], limits(i + 0));
      RunMinutes(runs[0]);
      MinutesAppend(Flat(runs[0]), FlatPages(runs[1..]));
    }
  }

  /** The minutes on all pages are the minutes of the visible events, however the pages cut them. */
  lemma FeedConservesMinutes(events: seq<Event>, limits: nat -> int)
    requires Descending(events)
    ensures PageMinutes(Pages(events, 0, limits, 0)) == Minutes(events)
  {
    hide Below, Pages, PageRuns, FlatPages, Minutes, PageMinutes, Shows, Descending;
    PagingCovers(events, 0, limits, 0);
    FeedIsComplete(events, limits);
    PagesMinutes(Pages(events, 0, limits, 0), PageRuns(events, 0, limits, 0), limits, 0);
  }

  // ---- The lines, field by field ---------------------------------------------

  /** The lines a page may have: as many as asked for, between one and fifty, else twenty. */
  function Lines(limit: int): nat {
    if 1 <= limit <= 50 then limit else 20
  }

  /** One line's events: all of the first's kind, person and day, and on the same list when they are listings. */
  ghost predicate OneLine(run: seq<Event>) {
    && run != []
    && (forall k :: 0 <= k < |run| ==>
          && run[k].kind == run[0].kind && run[k].person == run[0].person && run[k].day == run[0].day
          && (run[0].kind == Listed ==> run[k].ref == run[0].ref))
    && (|run| > 1 ==>
          run[0].kind == Logged || run[0].kind == Added || run[0].kind == Wishlisted || run[0].kind == Listed)
  }

  /** Two adjacent lines could not have been one. */
  ghost predicate TwoLines(run: seq<Event>, next: seq<Event>) {
    run != [] && next != [] &&
    var a, b := run[0], next[0];
    (b.kind == Logged || b.kind == Added || b.kind == Wishlisted || b.kind == Listed) ==>
      a.kind != b.kind || a.person != b.person || a.day != b.day || (b.kind == Listed && a.ref != b.ref)
  }

  ghost function PlayedMinutes(run: seq<Event>): int {
    if run == [] then 0 else (if run[0].kind == Logged then run[0].minutes else 0) + PlayedMinutes(run[1..])
  }

  /** What a line says of its events. */
  ghost predicate SaysOf(x: Entry, run: seq<Event>) {
    && run != [] && x.head == run[0] && x.minutes == PlayedMinutes(run)
    && (forall g :: g in x.games <==> g != 0 && exists e <- run :: e.game == g)
    && (forall i, j :: 0 <= i < j < |x.games| ==> x.games[i] != x.games[j])
  }

  lemma GroupedIsOneLine(run: seq<Event>)
    requires Grouped(run)
    ensures OneLine(run)
  {
    if |run| > 1 { assert Joins(run[0], run[1]); }
    forall k | 0 <= k < |run|
      ensures run[k].kind == run[0].kind && run[k].person == run[0].person && run[k].day == run[0].day
      ensures run[0].kind == Listed ==> run[k].ref == run[0].ref
    {
      if k > 0 { assert Joins(run[0], run[k]); }
    }
  }

  lemma {:induction false} PlayedIsMinutes(run: seq<Event>)
    ensures PlayedMinutes(run) == Minutes(run)
  {
    if run != [] { PlayedIsMinutes(run[1..]); }
  }

  lemma SummarySays(run: seq<Event>)
    requires run != []
    ensures SaysOf(Summary(run), run)
  {
    SummaryHead(run);
    SummaryMeaning(run);
    PlayedIsMinutes(run);
    hide Summary, Minutes, PlayedMinutes;
  }

  lemma {:induction false} SummariesAt(runs: seq<seq<Event>>, k: nat)
    requires NoEmpty(runs) && k < |runs|
    ensures Summaries(runs)[k] == Summary(runs[k])
  {
    hide Summary;
    if k < |runs| - 1 {
      SummariesAt(runs[..|runs| - 1], k);
    }
  }

  /** A page whose lines stand for these runs. */
  ghost predicate PageLines(page: Page, runs: seq<seq<Event>>, limit: int) {
    && |page.entries| == |runs| <= Lines(limit)
    && (forall r {:trigger runs[r]} :: 0 <= r < |runs| ==> OneLine(runs[r]) && SaysOf(page.entries[r], runs[r]))
    && (forall r {:trigger runs[r]} :: 0 < r < |runs| ==> TwoLines(runs[r - 1], runs[r]))
  }

  lemma ShownLines(page: Page, runs: seq<seq<Event>>, limit: int)
    requires Shows(page, runs, limit)
    ensures PageLines(page, runs, limit)
  {
    forall r {:trigger runs[r]} | 0 <= r < |runs| ensures OneLine(runs[r]) && SaysOf(page.entries[r], runs[r]) {
      GroupedIsOneLine(runs[r]);
      SummariesAt(runs, r);
      SummarySays(runs[r]);
    }
    forall r {:trigger runs[r]} | 0 < r < |runs| ensures TwoLines(runs[r - 1], runs[r]) {
      assert runs[r - 1] != [] && runs[r] != [];
      assert !Joins(runs[r - 1][0], runs[r][0]);
    }
    hide Summaries, Grouped, OneLine, SaysOf;
  }

  /**
   * Every page of the feed, field by field: each line stands for events of one kind, person and day,
   * those of two adjacent lines could not have been one, and the line says who, how long and which
   * games.
   */
  lemma FeedLines(events: seq<Event>, cursor: int, limits: nat -> int, i: nat)
    requires Descending(events)
    ensures var pages, runs := Pages(events, cursor, limits, i), PageRuns(events, cursor, limits, i);
            && |pages| == |runs|
            && forall p {:trigger pages[p]} :: 0 <= p < |pages| ==> PageLines(pages[p], runs[p], limits(i + p))
  {
    hide Pages, PageRuns, Shows, PageLines, Descending;
    PagingCovers(events, cursor, limits, i);
    var pages, runs := Pages(events, cursor, limits, i), PageRuns(events, cursor, limits, i);
    forall p {:trigger pages[p]} | 0 <= p < |pages| ensures PageLines(pages[p], runs[p], limits(i + p)) {
      ShownLines(pages[p], runs[p], limits(i + p));
    }
  }

  /**
   * A page goes as far as it can: to its last line, to the end, or through four times as many events as
   * lines asked for.
   */
  lemma PageFills(events: seq<Event>, cursor: int, limit: int)
    requires Descending(events)
    ensures var page, shown := FeedPage(events, cursor, limit), Flat(Runs(events, cursor, limit));
            var from := if cursor > 0 then cursor else 0x4000_0000_0000_0000;
            && shown <= Below(events, from)
            && (forall e <- events :: e in Below(events, from) <==> e.id < from)
            && (shown == Below(events, from) || |page.entries| == Lines(limit) || |shown| == 4 * Lines(limit))
            && (page.next == 0 <==> shown == [] || (|page.entries| < Lines(limit) && |shown| < 4 * Lines(limit)))
            && (page.next != 0 ==> page.next == shown[|shown| - 1].id)
  {
    hide Scan, Flat, WellGrouped, Below, Descending;
    PageShows(events, cursor, limit);
    BelowSuffix(events, Before(cursor));
    ScanShape(Rows(events, cursor, limit), Limit(limit), []);
    RunsPositive(events, cursor, limit);
  }

  lemma RunsPositive(events: seq<Event>, cursor: int, limit: int)
    requires Descending(events)
    ensures forall e <- Flat(Runs(events, cursor, limit)) :: e.id != 0
  {
    hide Scan, Flat, WellGrouped, Below;
    PageShows(events, cursor, limit);
    BelowSuffix(events, Before(cursor));
    var shown, rest := Flat(Runs(events, cursor, limit)), Below(events, Before(cursor));
    forall e <- shown ensures e.id != 0 {
      var k :| 0 <= k < |shown| && shown[k] == e;
      assert rest[k] == e && rest[k] == events[|events| - |rest| + k];
    }
  }
}
