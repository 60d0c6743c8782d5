// Keyset paging of the library list (internal/library/query.go): cursors print
// the last row's timestamp and game, pages resume strictly below them.
module LibraryPaging {
  import opened Collation
  import opened Prelude

  const MAX_PAGE_SIZE := 200
  const INT64_LIMIT := 0x8000_0000_0000_0000

  datatype Row = Row(updatedAt: string, gameID: int)
  datatype BadCursor = BadCursor

  // ---- Decimal numbers -----------------------------------------------------

  predicate IsInt64(n: int) {
    -INT64_LIMIT <= n < INT64_LIMIT
  }

  function Digit(d: nat): char
    requires d < 10
  {
    '0' + d as char
  }

  predicate IsDigit(c: char) {
    '0' <= c <= '9'
  }

  function PrintNat(n: nat): (s: string)
    ensures s != [] && forall i :: 0 <= i < |s| ==> IsDigit(s[i])
  {
    if n < 10 then [Digit(n)] else PrintNat(n / 10) + [Digit(n % 10)]
  }

  /** strconv.FormatInt in base 10. */
  function PrintInt(n: int): string {
    if n < 0 then "-" + PrintNat(-n) else PrintNat(n)
  }

  function ParseNat(s: string): Option<nat> {
    if s == [] || !IsDigit(s[|s| - 1]) then None
    else
      var d := (s[|s| - 1] - '0') as nat;
      if |s| == 1 then Some(d)
      else
        var front := ParseNat(s[..|s| - 1]);
        if front.None? then None else Some(front.value * 10 + d)
  }

  /** strconv.ParseInt in base 10 to 64 bits: a sign, digits, and a range. */
  function ParseInt(s: string): Option<int> {
    var signed := s != [] && (s[0] == '-' || s[0] == '+');
    var n := ParseNat(if signed then s[1..] else s);
    if n.None? then None
    else
      var v: int := if signed && s[0] == '-' then -(n.value as int) else n.value;
      if IsInt64(v) then Some(v) else None
  }

  lemma {:induction false} NatRoundTrip(n: nat)
    ensures ParseNat(PrintNat(n)) == Some(n)
  {
    if n >= 10 {
      NatRoundTrip(n / 10);
      assert PrintNat(n)[..|PrintNat(n)| - 1] == PrintNat(n / 10);
    }
  }

  lemma IntRoundTrip(n: int)
    requires IsInt64(n)
    ensures ParseInt(PrintInt(n)) == Some(n)
  {
    if n < 0 {
      NatRoundTrip(-n);
      assert PrintInt(n)[1..] == PrintNat(-n);
    } else {
      NatRoundTrip(n);
      assert IsDigit(PrintNat(n)[0]);
    }
  }

  // ---- Cursors ---------------------------------------------------------------

  /** Where the first bar is, or the length when there is none: strings.Cut on "|". */
  function Bar(s: string): (k: nat)
    ensures k <= |s| && (k < |s| ==> s[k] == '|') && forall i :: 0 <= i < k ==> s[i] != '|'
  {
    if s == [] || s[0] == '|' then 0 else 1 + Bar(s[1..])
  }

  /** The text under the base64 of cursor.String. */
  function PrintCursor(c: Row): string {
    c.updatedAt + "|" + PrintInt(c.gameID)
  }

  function ParseCursor(text: string): Result<Row, BadCursor> {
    var k := Bar(text);
    if k == |text| || k == 0 then Err(BadCursor)
    else
      var id := ParseInt(text[k + 1..]);
      if id.None? then Err(BadCursor) else Ok(Row(text[..k], id.value))
  }

  /** A printed cursor reads back as itself exactly when its timestamp is neither empty nor has a bar. */
  lemma CursorRoundTrip(c: Row)
    requires IsInt64(c.gameID)
    ensures ParseCursor(PrintCursor(c)) == Ok(c) <==> c.updatedAt != "" && '|' !in c.updatedAt
  {
    var text, n := PrintCursor(c), |c.updatedAt|;
    var k := Bar(text);
    assert text[n] == '|' && text[n + 1..] == PrintInt(c.gameID) && text[..n] == c.updatedAt;
    assert forall i :: 0 <= i < n ==> text[i] == c.updatedAt[i];
    assert k <= n;
    if k == n {
      IntRoundTrip(c.gameID);
    } else {
      assert c.updatedAt[k] == '|';
      assert |text[..k]| < n;
    }
  }

  // ---- The order -------------------------------------------------------------

  /** The row-value comparison (updated_at, game_id) < (?, ?). */
  predicate Less(a: Row, b: Row) {
    TextLess(a.updatedAt, b.updatedAt) || (a.updatedAt == b.updatedAt && a.gameID < b.gameID)
  }

  lemma LessAsymmetric(a: Row, b: Row)
    requires Less(a, b)
    ensures !Less(b, a)
  {
    if TextLess(a.updatedAt, b.updatedAt) {
      TextLessAsymmetric(a.updatedAt, b.updatedAt);
    } else if TextLess(b.updatedAt, a.updatedAt) {
      TextLessAsymmetric(b.updatedAt, a.updatedAt);
    }
  }

  /** The default order: updated_at DESC, game_id DESC; games are distinct, so strictly. */
  ghost predicate Descending(rows: seq<Row>) {
    forall i, j :: 0 <= i < j < |rows| ==> Less(rows[j], rows[i])
  }

  /** Timestamps are written by the store, never empty and without a bar; games have 64-bit ids. */
  ghost predicate Printable(rows: seq<Row>) {
    forall r <- rows :: r.updatedAt != "" && '|' !in r.updatedAt && IsInt64(r.gameID)
  }

  // ---- One page --------------------------------------------------------------

  datatype ListQuery = ListQuery(byUpdated: bool, cursor: string, offset: int, limit: int)
  datatype Page = Page(items: seq<Row>, nextCursor: string, hasMore: bool, total: Option<nat>)

  function PageSize(limit: int): (n: nat)
    ensures 1 <= n <= MAX_PAGE_SIZE
  {
    if limit <= 0 then 60 else if limit > MAX_PAGE_SIZE then MAX_PAGE_SIZE else limit
  }

  /** The WHERE clause of a cursor. */
  function Under(rows: seq<Row>, c: Row): seq<Row> {
    if rows == [] then [] else (if Less(rows[0], c) then [rows[0]] else []) + Under(rows[1..], c)
  }

  function Skip(rows: seq<Row>, offset: int): seq<Row> {
    if offset <= 0 then rows else if offset > |rows| then [] else rows[offset..]
  }

  function Candidates(rows: seq<Row>, q: ListQuery): Result<seq<Row>, BadCursor> {
    if q.cursor == "" then Ok(Skip(rows, q.offset))
    else if !q.byUpdated then Err(BadCursor)
    else
      var c := ParseCursor(q.cursor);
      if c.Err? then Err(BadCursor) else Ok(Under(rows, c.value))
  }

  /** A page of the rows that match the filter, already in the order asked for. */
  function ListPage(rows: seq<Row>, q: ListQuery): Result<Page, BadCursor> {
    var found := Candidates(rows, q);
    if found.Err? then Err(BadCursor)
    else
      var n := PageSize(q.limit);
      var more := |found.value| > n;
      var items := if more then found.value[..n] else found.value;
      Ok(Page(items,
              if more && q.byUpdated then PrintCursor(items[|items| - 1]) else "",
              more,
              if q.cursor == "" && q.offset <= 0 then Some(|rows|) else None))
  }

  /** Store.List: reads one row more than the page holds. */
  method List(rows: seq<Row>, q: ListQuery) returns (r: Result<Page, BadCursor>)
    ensures r == ListPage(rows, q)
  {
    hide ParseCursor, PrintCursor, Under, Skip;
    var n := PageSize(q.limit);
    var found := Candidates(rows, q);
    if found.Err? {
      return Err(BadCursor);
    }
    var all := found.value;
    var fetched := if |all| > n + 1 then all[..n + 1] else all;
    var items: seq<Row> := [];
    var hasMore := false;
    var i := 0;
    while i < |fetched|
      invariant 0 <= i <= |fetched| && !hasMore
      invariant |items| <= n && items == fetched[..i]
    {
      if |items| == n {
        hasMore := true;
        break;
      }
      items := items + [fetched[i]];
      i := i + 1;
    }
    assert !hasMore ==> items == fetched == all;
    assert hasMore ==> |all| > n && items == all[..n];
    var next := "";
    if hasMore && q.byUpdated && |items| > 0 {
      next := PrintCursor(items[|items| - 1]);
    }
    return Ok(Page(items, next, hasMore, if q.cursor == "" && q.offset <= 0 then Some(|rows|) else None));
  }

  // ---- Following the cursor --------------------------------------------------

  lemma {:induction false} UnderAll(rows: seq<Row>, c: Row)
    requires forall r <- rows :: Less(r, c)
    ensures Under(rows, c) == rows
  {
    if rows != [] {
      assert rows[0] in rows;
      UnderAll(rows[1..], c);
    }
  }

  /** Resuming at the k-th row of the order gives exactly the rows after it. */
  lemma {:induction false} UnderAt(rows: seq<Row>, k: nat)
    requires Descending(rows) && k < |rows|
    ensures Under(rows, rows[k]) == rows[k + 1..]
  {
    hide Less;
    if k == 0 {
      if Less(rows[0], rows[0]) {
        LessAsymmetric(rows[0], rows[0]);
      }
      UnderAll(rows[1..], rows[0]);
    } else {
      if Less(rows[0], rows[k]) {
        LessAsymmetric(rows[k], rows[0]);
      }
      UnderAt(rows[1..], k - 1);
    }
  }

  /** The request for a page, resuming at a row. */
  function Request(cursor: string, limit: int): ListQuery {
    ListQuery(true, cursor, 0, limit)
  }

  /** Where in the order a page request resumes. */
  ghost predicate ResumesAt(rows: seq<Row>, cursor: string, k: nat) {
    || (cursor == "" && k == 0)
    || (0 < k <= |rows| && cursor == PrintCursor(rows[k - 1]))
  }

  lemma PageAt(rows: seq<Row>, cursor: string, limit: int, k: nat)
    requires Descending(rows) && Printable(rows) && ResumesAt(rows, cursor, k)
    ensures k <= |rows|
    ensures ListPage(rows, Request(cursor, limit)).Ok?
    ensures var p := ListPage(rows, Request(cursor, limit)).value;
            var end := k + |p.items|;
            && end <= |rows|
            && p.items == rows[k..end]
            && (p.nextCursor == "" <==> end == |rows|)
            && (p.nextCursor != "" ==> end > k && ResumesAt(rows, p.nextCursor, end))
  {
    hide ParseCursor, PrintCursor, Less, Under;
    PrintedNotEmpty();
    if k > 0 {
      assert rows[k - 1] in rows;
      CursorRoundTrip(rows[k - 1]);
      UnderAt(rows, k - 1);
    } else if cursor != "" {
      assert false;
    }
  }

  lemma PrintedNotEmpty()
    ensures forall c :: PrintCursor(c) != ""
  {
    forall c
      ensures PrintCursor(c) != ""
    {
      assert |PrintCursor(c)| == |c.updatedAt| + 1 + |PrintInt(c.gameID)|;
    }
  }

  /** Pages got one after another by following next_cursor from one until it is empty, with a limit chosen for each. */
  ghost predicate Followed(rows: seq<Row>, cursor: string, limits: nat -> int, i: nat, pages: seq<Page>)
    decreases |pages|
  {
    && pages != []
    && ListPage(rows, Request(cursor, limits(i))) == Ok(pages[0])
    && if pages[0].nextCursor == "" then |pages| == 1
       else Followed(rows, pages[0].nextCursor, limits, i + 1, pages[1..])
  }

  ghost function Items(pages: seq<Page>): seq<Row> {
    if pages == [] then [] else pages[0].items + Items(pages[1..])
  }

  lemma {:induction false} FollowedGives(rows: seq<Row>, cursor: string, limits: nat -> int, i: nat, k: nat,
                                         pages: seq<Page>)
    requires Descending(rows) && Printable(rows) && ResumesAt(rows, cursor, k)
    requires Followed(rows, cursor, limits, i, pages)
    ensures k <= |rows| && Items(pages) == rows[k..] && |pages| <= |rows| - k + 1
    decreases |pages|
  {
    hide ResumesAt, Descending, Printable, ListPage;
    PageAt(rows, cursor, limits(i), k);
    var p := pages[0];
    if p.nextCursor != "" {
      FollowedGives(rows, p.nextCursor, limits, i + 1, k + |p.items|, pages[1..]);
      assert rows[k..] == p.items + rows[k + |p.items|..];
    } else {
      assert pages == [p] && Items(pages[1..]) == [];
    }
  }

  lemma {:induction false} FollowedEnds(rows: seq<Row>, cursor: string, limits: nat -> int, i: nat,
                                        k: nat) returns (pages: seq<Page>)
    requires Descending(rows) && Printable(rows) && ResumesAt(rows, cursor, k) && k <= |rows|
    ensures Followed(rows, cursor, limits, i, pages)
    decreases |rows| - k
  {
    hide ResumesAt, Descending, Printable, ListPage;
    PageAt(rows, cursor, limits(i), k);
    var p := ListPage(rows, Request(cursor, limits(i))).value;
    if p.nextCursor == "" {
      pages := [p];
    } else {
      var rest := FollowedEnds(rows, p.nextCursor, limits, i + 1, k + |p.items|);
      pages := [p] + rest;
    }
  }

  /**
   * Following the cursor from the start comes to an end, and whatever the limits the pages make up the
   * whole list in order, no row missed or repeated.
   */
  lemma PagingIsComplete(rows: seq<Row>, limits: nat -> int)
    requires Descending(rows) && Printable(rows)
    ensures exists pages :: Followed(rows, "", limits, 0, pages)
    ensures forall pages :: Followed(rows, "", limits, 0, pages) ==> Items(pages) == rows
  {
    hide Descending, Printable, Followed;
    var pages := FollowedEnds(rows, "", limits, 0, 0);
    forall pages | Followed(rows, "", limits, 0, pages)
      ensures Items(pages) == rows
    {
      FollowedGives(rows, "", limits, 0, 0, pages);
    }
  }

  /** A cursor is refused with any order but the default, and any text that is no cursor is refused. */
  lemma RefusedIff(rows: seq<Row>, q: ListQuery)
    ensures ListPage(rows, q).Err? <==> q.cursor != "" && (!q.byUpdated || ParseCursor(q.cursor).Err?)
  {
  }

  /** A row comes after a cursor in the default order: an earlier time, or the same time and a lower game. */
  ghost predicate After(r: Row, c: Row) {
    TextLess(r.updatedAt, c.updatedAt) || (r.updatedAt == c.updatedAt && r.gameID < c.gameID)
  }

  /** Wherever a cursor points, its row there or gone, the rows left are those after it: a last part of the list. */
  lemma {:induction false} UnderAny(rows: seq<Row>, c: Row) returns (k: nat)
    requires Descending(rows)
    ensures k <= |rows| && Under(rows, c) == rows[k..]
    ensures forall i :: 0 <= i < |rows| ==> (After(rows[i], c) <==> k <= i)
  {
    if rows == [] {
      k := 0;
    } else if Less(rows[0], c) {
      k := 0;
      forall i | 0 <= i < |rows|
        ensures Less(rows[i], c)
      {
        if i > 0 {
          LessTransitive(rows[i], rows[0], c);
        }
      }
      UnderAll(rows, c);
    } else {
      k := UnderAny(rows[1..], c);
      k := k + 1;
      forall i | 0 < i < |rows|
        ensures After(rows[i], c) <==> k <= i
      {
        assert rows[i] == rows[1..][i - 1];
      }
    }
  }

  lemma LessTransitive(a: Row, b: Row, c: Row)
    requires Less(a, b) && Less(b, c)
    ensures Less(a, c)
  {
    if TextLess(a.updatedAt, b.updatedAt) && TextLess(b.updatedAt, c.updatedAt) {
      TextLessTransitive(a.updatedAt, b.updatedAt, c.updatedAt);
    }
  }

  /** The rows of the list with these many before it and no more than these, and the page that says so. */
  ghost predicate PageFrom(rows: seq<Row>, k: nat, size: nat, p: Page) {
    && k <= |rows|
    && p.items == (if |rows| - k <= size then rows[k..] else rows[k..k + size])
    && (p.hasMore <==> |rows| - k > size)
  }

  /**
   * What a page is: 60 rows when no size is asked for, at most 200; without a cursor from the offset,
   * with one the first rows after it; the total on the first page alone, and a cursor for the next page
   * exactly when more follow in the default order, printing the last row's time and game.
   */
  lemma PageSays(rows: seq<Row>, q: ListQuery)
    requires Descending(rows) && ListPage(rows, q).Ok?
    ensures var p := ListPage(rows, q).value;
            var size := if q.limit <= 0 then 60 else if q.limit > 200 then 200 else q.limit;
            && (q.cursor == "" ==>
                  PageFrom(rows, if q.offset <= 0 then 0 else if q.offset < |rows| then q.offset else |rows|, size, p))
            && (q.cursor != "" ==>
                  && ParseCursor(q.cursor).Ok?
                  && exists k: nat ::
                       && PageFrom(rows, k, size, p)
                       && forall i :: 0 <= i < |rows| ==> (After(rows[i], ParseCursor(q.cursor).value) <==> k <= i))
            && (p.total == if q.cursor == "" && q.offset <= 0 then Some(|rows|) else None)
            && (p.hasMore ==> p.items != [])
            && (p.nextCursor ==
                if p.hasMore && q.byUpdated
                then p.items[|p.items| - 1].updatedAt + "|" + PrintInt(p.items[|p.items| - 1].gameID)
                else "")
  {
    hide ParseCursor, Under, Descending, After, PrintInt;
    if q.cursor != "" {
      var k := UnderAny(rows, ParseCursor(q.cursor).value);
      assert PageFrom(rows, k, PageSize(q.limit), ListPage(rows, q).value);
    }
  }
}
