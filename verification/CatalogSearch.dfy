// Catalog search (internal/catalog/store.go): LIKE patterns and index ranges for
// a prefix, and the candidate graph behind a results page and its total.
module CatalogSearch {
  import opened Collation
  import T = Text

  // ---- LIKE with ESCAPE '\' ---------------------------------------------------

  const TOP: char := '\U{10FFFF}'

  /** strings.ReplaceAll for a single character. */
  function ReplaceAll(s: string, c: char, repl: string): string {
    if s == [] then [] else (if s[0] == c then repl else [s[0]]) + ReplaceAll(s[1..], c, repl)
  }

  /** EscapeLike: three replacements, the backslash first. */
  function EscapeLike(s: string): string {
    ReplaceAll(ReplaceAll(ReplaceAll(s, '\\', "\\\\"), '%', "\\%"), '_', "\\_")
  }

  function EscapeChar(c: char): string {
    if c == '\\' || c == '%' || c == '_' then ['\\', c] else [c]
  }

  function Escaped(s: string): string {
    if s == [] then [] else EscapeChar(s[0]) + Escaped(s[1..])
  }

  lemma {:induction false} ReplaceConcat(a: string, b: string, c: char, repl: string)
    ensures ReplaceAll(a + b, c, repl) == ReplaceAll(a, c, repl) + ReplaceAll(b, c, repl)
  {
    if a == [] {
      assert a + b == b;
    } else {
      assert (a + b)[1..] == a[1..] + b;
      ReplaceConcat(a[1..], b, c, repl);
    }
  }

  /** No replacement touches what an earlier one inserted: every character is escaped on its own. */
  lemma {:induction false} EscapesEachCharacter(s: string)
    ensures EscapeLike(s) == Escaped(s)
  {
    if s != [] {
      EscapesEachCharacter(s[1..]);
      var c, rest := [s[0]], s[1..];
      assert s == c + rest;
      ReplaceConcat(c, rest, '\\', "\\\\");
      ReplaceConcat(ReplaceAll(c, '\\', "\\\\"), ReplaceAll(rest, '\\', "\\\\"), '%', "\\%");
      ReplaceConcat(ReplaceAll(ReplaceAll(c, '\\', "\\\\"), '%', "\\%"),
                    ReplaceAll(ReplaceAll(rest, '\\', "\\\\"), '%', "\\%"), '_', "\\_");
      EscapesOne(s[0]);
    }
  }

  lemma EscapesOne(c: char)
    ensures EscapeLike([c]) == EscapeChar(c)
  {
    ReplaceOne(c, '\\', "\\\\");
    if c == '\\' {
      ReplaceConcat("\\", "\\", '%', "\\%");
      ReplaceConcat("\\", "\\", '_', "\\_");
      ReplaceOne('\\', '%', "\\%");
      ReplaceOne('\\', '_', "\\_");
      assert "\\" + "\\" == "\\\\";
    } else {
      ReplaceOne(c, '%', "\\%");
      if c == '%' {
        assert "\\" + "%" == "\\%";
        ReplaceConcat("\\", "%", '_', "\\_");
        ReplaceOne('\\', '_', "\\_");
        ReplaceOne('%', '_', "\\_");
      } else {
        ReplaceOne(c, '_', "\\_");
      }
    }
  }

  lemma ReplaceOne(c: char, x: char, repl: string)
    ensures ReplaceAll([c], x, repl) == if c == x then repl else [c]
  {
  }

  /** SQLite's LIKE with a backslash as escape: letters match without regard to ASCII case. */
  predicate Like(pattern: string, text: string)
    decreases |pattern| + |text|
  {
    if pattern == [] then text == []
    else if pattern[0] == '%' then Like(pattern[1..], text) || (text != [] && Like(pattern, text[1..]))
    else if pattern[0] == '\\' then
      |pattern| > 1 && text != [] && T.LowerChar(pattern[1]) == T.LowerChar(text[0]) && Like(pattern[2..], text[1..])
    else
      && text != []
      && (pattern[0] == '_' || T.LowerChar(pattern[0]) == T.LowerChar(text[0]))
      && Like(pattern[1..], text[1..])
  }

  /** One text starts with another but for case. */
  predicate StartsWith(text: string, q: string) {
    |q| <= |text| && T.Lower(text[..|q|]) == T.Lower(q)
  }

  lemma StartsWithStep(text: string, q: string)
    requires q != []
    ensures StartsWith(text, q) <==>
            text != [] && T.LowerChar(text[0]) == T.LowerChar(q[0]) && StartsWith(text[1..], q[1..])
  {
    if text != [] && |q| <= |text| {
      var head := text[..|q|];
      var a, b := T.Lower(text[1..][..|q| - 1]), T.Lower(q[1..]);
      assert T.Lower(head) == [T.LowerChar(text[0])] + a;
      assert T.Lower(q) == [T.LowerChar(q[0])] + b;
      assert T.Lower(head)[1..] == a && T.Lower(q)[1..] == b;
    }
  }

  /** An escaped query in front of a pattern matches itself and nothing else. */
  lemma {:induction false} EscapedIsLiteral(q: string, pattern: string, text: string)
    ensures Like(Escaped(q) + pattern, text) <==> StartsWith(text, q) && Like(pattern, text[|q|..])
  {
    if q == [] {
      assert Escaped(q) + pattern == pattern && text[..0] == [];
    } else {
      var tail := Escaped(q[1..]) + pattern;
      assert Escaped(q) + pattern == EscapeChar(q[0]) + tail;
      StartsWithStep(text, q);
      if |EscapeChar(q[0])| == 2 {
        assert (EscapeChar(q[0]) + tail)[2..] == tail;
      } else {
        assert (EscapeChar(q[0]) + tail)[1..] == tail;
      }
      if text != [] {
        EscapedIsLiteral(q[1..], pattern, text[1..]);
        if |q| <= |text| {
          assert text[1..][|q| - 1..] == text[|q|..];
        }
      }
    }
  }

  lemma {:induction false} AnyMatches(text: string)
    ensures Like("%", text)
  {
    assert "%"[1..] == "";
    if text != [] {
      AnyMatches(text[1..]);
    }
  }

  /** The pattern for a prefix: an escaped query and a percent sign. */
  lemma PrefixPattern(q: string, text: string)
    ensures Like(EscapeLike(q) + "%", text) <==> StartsWith(text, q)
  {
    EscapesEachCharacter(q);
    EscapedIsLiteral(q, "%", text);
    if StartsWith(text, q) {
      AnyMatches(text[|q|..]);
    }
  }

  /** The pattern for a part: matches exactly the texts that have the query somewhere. */
  lemma {:induction false} ContainsPattern(q: string, text: string)
    ensures Like("%" + EscapeLike(q) + "%", text) <==> exists i :: 0 <= i <= |text| && StartsWith(text[i..], q)
    decreases text
  {
    var p := "%" + EscapeLike(q) + "%";
    var rest := EscapeLike(q) + "%";
    assert p[1..] == rest && p[0] == '%';
    PrefixPattern(q, text);
    assert text[0..] == text;
    if text == [] {
      assert Like(p, text) <==> Like(rest, text);
    } else {
      ContainsPattern(q, text[1..]);
      assert Like(p, text) <==> Like(rest, text) || Like(p, text[1..]);
      if Like(p, text[1..]) {
        var i :| 0 <= i <= |text[1..]| && StartsWith(text[1..][i..], q);
        assert text[1..][i..] == text[i + 1..];
      }
      if exists i :: 0 < i <= |text| && StartsWith(text[i..], q) {
        var i :| 0 < i <= |text| && StartsWith(text[i..], q);
        assert text[1..][i - 1..] == text[i..];
      }
    }
  }

  /** The pattern for the start of a later word: a space somewhere and the query behind it. */
  lemma {:induction false} WordPattern(q: string, text: string)
    ensures Like("% " + EscapeLike(q) + "%", text) <==>
            exists i :: 0 < i <= |text| && text[i - 1] == ' ' && StartsWith(text[i..], q)
    decreases text
  {
    var p := "% " + EscapeLike(q) + "%";
    var word := " " + EscapeLike(q) + "%";
    var rest := EscapeLike(q) + "%";
    assert p[0] == '%' && p[1..] == word && word[0] == ' ' && word[1..] == rest;
    if text == [] {
      assert !Like(word, text);
    } else {
      WordPattern(q, text[1..]);
      PrefixPattern(q, text[1..]);
      assert Like(word, text) <==> text[0] == ' ' && StartsWith(text[1..], q);
      if Like(p, text[1..]) {
        var i :| 0 < i <= |text[1..]| && text[1..][i - 1] == ' ' && StartsWith(text[1..][i..], q);
        assert text[(i + 1) - 1] == ' ' && text[1..][i..] == text[i + 1..];
      }
      if exists i :: 0 < i <= |text| && text[i - 1] == ' ' && StartsWith(text[i..], q) {
        var i :| 0 < i <= |text| && text[i - 1] == ' ' && StartsWith(text[i..], q);
        if i > 1 {
          assert text[1..][(i - 1) - 1] == ' ' && text[1..][i - 1..] == text[i..];
        }
      }
    }
  }

  // ---- The index range ---------------------------------------------------------

  /** prefixUpperBound. */
  function PrefixUpperBound(q: string): string {
    q + [TOP]
  }

  /** name >= q AND name < prefixUpperBound(q). */
  predicate InRange(q: string, text: string) {
    !TextLess(text, q) && TextLess(text, PrefixUpperBound(q))
  }

  /** The range holds exactly the texts that start with the query and do not go on with the last code point. */
  lemma {:induction false} RangeIsPrefix(q: string, text: string)
    ensures InRange(q, text) <==> q <= text && (|text| > |q| ==> text[|q|] != TOP)
  {
    var bound := PrefixUpperBound(q);
    if q == [] {
      assert bound == [TOP] && bound[1..] == [];
      if text != [] {
        assert text[0] <= TOP;
        assert !TextLess(text[1..], bound[1..]);
        assert TextLess(text, bound) <==> text[0] < TOP;
      }
    } else {
      assert q <= text ==> text != [] && text[0] == q[0];
      assert bound[0] == q[0] && bound[1..] == PrefixUpperBound(q[1..]);
      if text != [] && text[0] == q[0] {
        RangeIsPrefix(q[1..], text[1..]);
        assert q <= text <==> q[1..] <= text[1..] by {
          if q[1..] <= text[1..] {
            assert q == [q[0]] + q[1..] && text == [text[0]] + text[1..];
          }
        }
      }
    }
  }

  predicate LowerCased(s: string) {
    T.Lower(s) == s
  }

  /**
   * On lower-cased text the escaped pattern and the index range select the same names, unless one goes
   * on with the last code point.
   */
  lemma PatternIsRange(q: string, text: string)
    requires LowerCased(q) && LowerCased(text)
    ensures Like(EscapeLike(q) + "%", text) == InRange(q, text) <==> !(q < text && text[|q|] == TOP)
  {
    PrefixPattern(q, text);
    RangeIsPrefix(q, text);
    if |q| <= |text| {
      var head := text[..|q|];
      assert T.Lower(head) == head by {
        forall i | 0 <= i < |head|
          ensures T.LowerChar(head[i]) == head[i]
        {
          assert T.Lower(text)[i] == T.LowerChar(text[i]);
        }
      }
      assert q <= text <==> head == q;
      assert StartsWith(text, q) <==> head == q;
    }
  }

  // ---- Tiers ---------------------------------------------------------------------

  function LikeTier(q: string, name: string): nat {
    if name == q then 0
    else if Like(EscapeLike(q) + "%", name) then 1
    else if Like("% " + EscapeLike(q) + "%", name) then 2
    else 3
  }

  function RangeTier(q: string, name: string): nat {
    if name == q then 0 else 1
  }

  /**
   * What a tier says of a name: the query itself, a longer name that starts with it, a name with a
   * later word that does, or one that holds it in no such place.
   */
  lemma TierSays(q: string, name: string)
    ensures var later := exists i :: 0 < i <= |name| && name[i - 1] == ' ' && StartsWith(name[i..], q);
            && (LikeTier(q, name) == 0 <==> name == q)
            && (LikeTier(q, name) == 1 <==> name != q && StartsWith(name, q))
            && (LikeTier(q, name) == 2 <==> !StartsWith(name, q) && later)
            && (LikeTier(q, name) == 3 <==> !StartsWith(name, q) && !later)
  {
    PrefixPattern(q, name);
    WordPattern(q, name);
    assert name[..|name|] == name;
  }

  datatype Game = Game(name: string, parent: int, popularity: int)

  datatype Scored = Scored(id: int, tier: nat, popularity: int)

  /** The two arms of a full-text typeahead, over the games each has scanned, united. */
  function TypeaheadRows(games: map<int, Game>, q: string, ranged: set<int>, hits: set<int>): set<Scored> {
    (set id | id in ranged && id in games && InRange(q, games[id].name) ::
       Scored(id, RangeTier(q, games[id].name), games[id].popularity)) +
    (set id | id in hits && id in games ::
       Scored(id, LikeTier(q, games[id].name), games[id].popularity))
  }

  lemma RangeTierIsLikeTier(q: string, name: string)
    requires InRange(q, name)
    ensures RangeTier(q, name) == LikeTier(q, name)
  {
    RangeIsPrefix(q, name);
    PrefixPattern(q, name);
    assert name[..|q|] == q;
  }

  /** Whatever each arm scanned, UNION leaves one row for a game, with the tier its name has in either. */
  lemma OneRowEach(games: map<int, Game>, q: string, ranged: set<int>, hits: set<int>)
    ensures forall r <- TypeaheadRows(games, q, ranged, hits) ::
              r.id in games && r.tier == LikeTier(q, games[r.id].name)
    ensures forall r, s ::
              r in TypeaheadRows(games, q, ranged, hits) && s in TypeaheadRows(games, q, ranged, hits) && r.id == s.id
              ==> r == s
  {
    hide LikeTier, RangeTier, InRange;
    forall r | r in TypeaheadRows(games, q, ranged, hits)
      ensures r.id in games && r == Scored(r.id, LikeTier(q, games[r.id].name), games[r.id].popularity)
    {
      if InRange(q, games[r.id].name) {
        RangeTierIsLikeTier(q, games[r.id].name);
      }
    }
  }

  // ---- The candidate graph ---------------------------------------------------------

  /**
   * What a search matched: one tier for each name match, the alias matches, and the games that pass
   * the filters of the direct branch and of the other two.
   */
  datatype Matches = Matches(names: map<int, nat>, aliases: set<int>, directFilter: set<int>, filter: set<int>)

  function ParentMatch(m: Matches): set<int> {
    m.names.Keys + m.aliases
  }

  datatype Eligible = Eligible(id: int, tier: nat, src: nat)

  datatype JoinedChild = JoinedChild(parent: int, row: Eligible)

  function NameBranch(games: map<int, Game>, m: Matches): set<Eligible> {
    set id | id in m.names && id in games && id in m.directFilter :: Eligible(id, m.names[id], 0)
  }

  function AliasBranch(games: map<int, Game>, m: Matches): set<Eligible> {
    set id | id in m.aliases && id in games && id in m.filter && id !in m.names :: Eligible(id, 3, 1)
  }

  /** The third branch's join rows, a row for each matched parent and child of it. */
  function ChildJoin(games: map<int, Game>, m: Matches): set<JoinedChild> {
    set pm, id | pm in ParentMatch(m) && id in games && games[id].parent == pm && id in m.filter &&
                 id !in m.names && id !in m.aliases :: JoinedChild(pm, Eligible(id, 3, 2))
  }

  /** COUNT(*) over UNION ALL of the branches. */
  function Total(games: map<int, Game>, m: Matches): nat {
    |NameBranch(games, m)| + |AliasBranch(games, m)| + |ChildJoin(games, m)|
  }

  /** The rows a page is cut from. */
  function Rows(games: map<int, Game>, m: Matches): set<Eligible> {
    NameBranch(games, m) + AliasBranch(games, m) + set j <- ChildJoin(games, m) :: j.row
  }

  /**
   * The games a search should list: those that match by name and pass the direct filter, or do not,
   * pass the other, and match by alias or through their parent.
   */
  function Listed(games: map<int, Game>, m: Matches): set<int> {
    set id | id in games &&
             (if id in m.names then id in m.directFilter
              else id in m.filter && (id in m.aliases || games[id].parent in ParentMatch(m)))
  }

  lemma {:induction false} ImageSize<A(!new), B>(s: set<A>, f: A -> B, image: set<B>)
    requires image == set a | a in s :: f(a)
    requires forall a, b :: a in s && b in s && f(a) == f(b) ==> a == b
    ensures |image| == |s|
  {
    if s != {} {
      var x :| x in s;
      var less := s - {x};
      var lessImage := set a | a in less :: f(a);
      ImageSize(less, f, lessImage);
      assert image == lessImage + {f(x)};
    }
  }

  lemma ChildOnce(games: map<int, Game>, m: Matches)
    ensures |(set j <- ChildJoin(games, m) :: j.row)| == |ChildJoin(games, m)|
  {
    var rows := set j <- ChildJoin(games, m) :: j.row;
    forall a, b | a in ChildJoin(games, m) && b in ChildJoin(games, m) && a.row == b.row
      ensures a == b
    {
      assert a.parent == games[a.row.id].parent == b.parent;
    }
    ImageSize(ChildJoin(games, m), (j: JoinedChild) => j.row, rows);
  }

  lemma BranchesDisjoint(games: map<int, Game>, m: Matches)
    ensures NameBranch(games, m) !! AliasBranch(games, m)
    ensures (NameBranch(games, m) + AliasBranch(games, m)) !! set j <- ChildJoin(games, m) :: j.row
  {
  }

  /**
   * A search lists the games that match by name and pass the direct filter, and of the others those
   * that pass theirs and match by an alias or through a parent that matches by either. Each has one row.
   */
  lemma RowsDistinct(games: map<int, Game>, m: Matches)
    ensures forall r, s :: r in Rows(games, m) && s in Rows(games, m) && r.id == s.id ==> r == s
    ensures forall id :: id in Listed(games, m) <==> exists r <- Rows(games, m) :: r.id == id
    ensures forall id :: id in Listed(games, m) <==>
                           && id in games
                           && if id in m.names then id in m.directFilter
                              else && id in m.filter
                                   && (|| id in m.aliases
                                       || games[id].parent in m.names
                                       || games[id].parent in m.aliases)
    ensures forall r <- Rows(games, m) ::
              if r.id in m.names then r.tier == m.names[r.id] && r.src == 0
              else r.tier == 3 && r.src == if r.id in m.aliases then 1 else 2
  {
    forall r | r in Rows(games, m)
      ensures r == RowOf(games, m, r.id) && r.id in Listed(games, m)
    {
    }
    forall id | id in Listed(games, m)
      ensures RowOf(games, m, id) in Rows(games, m)
    {
      if id !in m.names && id !in m.aliases {
        assert JoinedChild(games[id].parent, Eligible(id, 3, 2)) in ChildJoin(games, m);
      }
    }
  }

  /** The one row a listed game has. */
  function RowOf(games: map<int, Game>, m: Matches, id: int): Eligible {
    if id in m.names then Eligible(id, m.names[id], 0) else if id in m.aliases then Eligible(id, 3, 1)
    else Eligible(id, 3, 2)
  }

  lemma ListedSize(rows: set<Eligible>, ids: set<int>)
    requires forall r, s :: r in rows && s in rows && r.id == s.id ==> r == s
    requires forall id :: id in ids <==> exists r <- rows :: r.id == id
    ensures |ids| == |rows|
  {
    var f := (r: Eligible) => r.id;
    var image := set r | r in rows :: f(r);
    forall id | id in ids
      ensures id in image
    {
      var r :| r in rows && r.id == id;
      assert f(r) == id;
    }
    assert ids == image;
    ImageSize(rows, f, image);
  }

  /**
   * A search lists each game once and counts as many as it lists: the branches neither overlap nor
   * repeat, though a child is found through a join.
   */
  lemma TotalCountsGames(games: map<int, Game>, m: Matches)
    ensures Total(games, m) == |Rows(games, m)| == |Listed(games, m)|
  {
    hide NameBranch, AliasBranch, ChildJoin, Listed;
    BranchesDisjoint(games, m);
    ChildOnce(games, m);
    RowsDistinct(games, m);
    var names, aliases, children := NameBranch(games, m), AliasBranch(games, m), set j <- ChildJoin(games, m) :: j.row;
    assert |names + aliases| == |names| + |aliases|;
    assert |names + aliases + children| == |names + aliases| + |children|;
    ListedSize(Rows(games, m), Listed(games, m));
  }
}
