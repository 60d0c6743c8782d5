// Tag and platform lists: trimmed, and told apart without regard to case.
// White space and letter case are ASCII's.
module Text {

  predicate IsSpace(c: char) {
    c == ' ' || '\t' <= c <= '\r'
  }

  function Trim(s: string): (r: string)
    ensures r == "" || (!IsSpace(r[0]) && !IsSpace(r[|r| - 1]))
    decreases |s|
  {
    if s == "" then s
    else if IsSpace(s[0]) then Trim(s[1..])
    else if IsSpace(s[|s| - 1]) then Trim(s[..|s| - 1])
    else s
  }

  const SPACE := " \t\n\U{B}\U{C}\r"

  lemma SpaceIs(c: char)
    ensures IsSpace(c) <==> c in SPACE
  {
    assert SPACE[0] == ' ' && SPACE[1] == '\t' && SPACE[2] == '\n' && SPACE[5] == '\r';
  }

  /** Trimming takes exactly the blanks, tabs and line breaks from both ends. */
  lemma {:induction false} TrimTakesSpace(s: string) returns (i: nat, j: nat)
    ensures i <= j <= |s| && Trim(s) == s[i..j]
    ensures forall k | 0 <= k < i || j <= k < |s| :: s[k] in SPACE
    ensures i < j ==> s[i] !in SPACE && s[j - 1] !in SPACE
    decreases |s|
  {
    hide IsSpace, SPACE;
    i, j := 0, |s|;
    if s != "" {
      SpaceIs(s[0]);
      SpaceIs(s[|s| - 1]);
    }
    if s != "" && IsSpace(s[0]) {
      var rest := s[1..];
      i, j := TrimTakesSpace(rest);
      assert rest[i..j] == s[i + 1..j + 1];
      assert forall k | 1 <= k < |s| :: s[k] == rest[k - 1];
      i, j := i + 1, j + 1;
    } else if s != "" && IsSpace(s[|s| - 1]) {
      var front := s[..|s| - 1];
      i, j := TrimTakesSpace(front);
      assert front[i..j] == s[i..j];
      assert forall k | 0 <= k < |front| :: s[k] == front[k];
    }
  }

  lemma TrimTwice(s: string)
    ensures Trim(Trim(s)) == Trim(s)
    ensures Key(Trim(s)) == Key(s)
    ensures Key(s) == "" <==> Trim(s) == ""
  {
  }

  function LowerChar(c: char): char {
    if 'A' <= c <= 'Z' then c - 'A' + 'a' else c
  }

  function Lower(s: string): string {
    seq(|s|, i requires 0 <= i < |s| => LowerChar(s[i]))
  }

  /** What makes two labels the same. */
  function Key(s: string): string {
    Lower(Trim(s))
  }

  function Keys(labels: seq<string>): set<string> {
    set i | 0 <= i < |labels| :: Key(labels[i])
  }

  /** The first of each label not dropped, trimmed, in order. */
  function Distinct(labels: seq<string>, drop: set<string>): seq<string> {
    if labels == [] then []
    else
      var kept := Distinct(labels[..|labels| - 1], drop);
      var t := Trim(labels[|labels| - 1]);
      if t == "" || Lower(t) in drop || Lower(t) in Keys(kept) then kept else kept + [t]
  }

  /** A stored list: every label trimmed, none blank, no two the same. */
  ghost predicate Tidy(labels: seq<string>) {
    && (forall i | 0 <= i < |labels| :: labels[i] != "" && Trim(labels[i]) == labels[i])
    && (forall i, j | 0 <= i < j < |labels| :: Key(labels[i]) != Key(labels[j]))
  }

  lemma KeysAppend(a: seq<string>, t: string)
    ensures Keys(a + [t]) == Keys(a) + {Key(t)}
  {
    var b := a + [t];
    assert b[|a|] == t;
    forall k | k in Keys(a) ensures k in Keys(b) {
      var i :| 0 <= i < |a| && Key(a[i]) == k;
      assert b[i] == a[i];
    }
  }

  lemma KeysConcat(a: seq<string>, b: seq<string>)
    ensures Keys(a + b) == Keys(a) + Keys(b)
  {
    var c := a + b;
    forall k | k in Keys(a) + Keys(b) ensures k in Keys(c) {
      if k in Keys(a) {
        var i :| 0 <= i < |a| && Key(a[i]) == k;
        assert c[i] == a[i];
      } else {
        var i :| 0 <= i < |b| && Key(b[i]) == k;
        assert c[|a| + i] == b[i];
      }
    }
  }

  /** Once added, labels are there: adding them again changes nothing. */
  lemma AddedTwice(a: seq<string>, b: seq<string>)
    requires Tidy(a)
    ensures Distinct(Distinct(a + b, {}) + b, {}) == Distinct(a + b, {})
  {
    DistinctIsTidy(a + b, {});
    DistinctExtends(Distinct(a + b, {}), b);
    KeysConcat(a, b);
  }

  lemma DistinctOne(p: string)
    ensures Distinct([p], {}) == if Trim(p) == "" then [] else [Trim(p)]
  {
    assert [p][..0] == [];
    assert Distinct([p][..0], {}) == [];
  }

  lemma {:induction false} DistinctIsTidy(labels: seq<string>, drop: set<string>)
    ensures Tidy(Distinct(labels, drop))
    ensures Keys(Distinct(labels, drop)) == Keys(labels) - drop - {""}
  {
    if labels == [] {
    } else {
      var front := labels[..|labels| - 1];
      var t := labels[|labels| - 1];
      DistinctIsTidy(front, drop);
      assert front + [t] == labels;
      KeysAppend(front, t);
      TrimTwice(t);
      var kept := Distinct(front, drop);
      KeysAppend(kept, Trim(t));
      forall i | 0 <= i < |kept| ensures Key(kept[i]) in Keys(kept) {}
      hide Trim, Lower, Keys;
    }
  }

  /** Where the kept labels stood: each was the first of its key, and they keep their order. */
  lemma {:induction false} DistinctFirsts(labels: seq<string>, drop: set<string>) returns (at: seq<nat>)
    ensures |at| == |Distinct(labels, drop)|
    ensures forall i | 0 <= i < |at| ::
              && at[i] < |labels| && Distinct(labels, drop)[i] == Trim(labels[at[i]])
              && forall b | 0 <= b < at[i] :: Key(labels[b]) != Key(labels[at[i]])
    ensures forall i, j | 0 <= i < j < |at| :: at[i] < at[j]
  {
    hide Trim, Lower, Keys;
    at := [];
    if labels != [] {
      var n := |labels| - 1;
      var kept := Distinct(labels[..n], drop);
      at := DistinctFirsts(labels[..n], drop);
      if Distinct(labels, drop) != kept {
        NewLabel(labels, drop);
        at := at + [n];
      }
    }
  }

  lemma NewLabel(labels: seq<string>, drop: set<string>)
    requires labels != [] && Distinct(labels, drop) != Distinct(labels[..|labels| - 1], drop)
    ensures forall b | 0 <= b < |labels| - 1 :: Key(labels[b]) != Key(labels[|labels| - 1])
  {
    var front := labels[..|labels| - 1];
    DistinctIsTidy(front, drop);
    LowerLength(Trim(labels[|labels| - 1]));
    forall b | 0 <= b < |labels| - 1 ensures Key(front[b]) in Keys(front) {}
    hide Trim, Lower, Keys;
    assert forall b | 0 <= b < |labels| - 1 :: front[b] == labels[b];
  }

  lemma LowerLength(s: string)
    ensures |Lower(s)| == |s|
  {
  }

  /** Two labels are the same exactly when, trimmed, they differ at most in the case of ASCII letters. */
  lemma SameKey(s: string, t: string)
    ensures Key(s) == Key(t) <==>
              && |Trim(s)| == |Trim(t)|
              && forall i | 0 <= i < |Trim(s)| ::
                   var a, b := Trim(s)[i], Trim(t)[i];
                   a == b || ('A' <= a <= 'Z' && b == a + ' ') || ('A' <= b <= 'Z' && a == b + ' ')
  {
    if Key(s) == Key(t) {
      assert |Key(s)| == |Key(t)|;
      forall i | 0 <= i < |Trim(s)| ensures LowerChar(Trim(s)[i]) == LowerChar(Trim(t)[i]) {
        assert Key(s)[i] == Key(t)[i];
      }
    }
  }

  lemma {:induction false} TidyIsDistinct(labels: seq<string>)
    requires Tidy(labels)
    ensures Distinct(labels, {}) == labels
  {
    if labels != [] {
      TidyIsDistinct(labels[..|labels| - 1]);
    }
  }

  /** Adding labels to a tidy list keeps the list as a prefix, and changes it just when a new key comes. */
  lemma {:induction false} DistinctExtends(a: seq<string>, b: seq<string>)
    requires Tidy(a)
    ensures a <= Distinct(a + b, {})
    ensures Distinct(a + b, {}) == a <==> Keys(b) - {""} <= Keys(a)
  {
    if b == [] {
      assert a + b == a;
      TidyIsDistinct(a);
    } else {
      var front := b[..|b| - 1];
      var t := b[|b| - 1];
      DistinctExtends(a, front);
      assert (a + b)[..|a + b| - 1] == a + front;
      assert front + [t] == b;
      KeysAppend(front, t);
      if Distinct(a + front, {}) != a {
        assert |Distinct(a + b, {})| > |a|;
      }
    }
  }

  /** More labels never change the ones already kept. */
  lemma {:induction false} DistinctPrefix(a: seq<string>, b: seq<string>, drop: set<string>)
    ensures Distinct(a, drop) <= Distinct(a + b, drop)
  {
    if b == [] {
      assert a + b == a;
    } else {
      DistinctPrefix(a, b[..|b| - 1], drop);
      assert (a + b)[..|a + b| - 1] == a + b[..|b| - 1];
    }
  }

  /** One more label. */
  lemma DistinctStep(labels: seq<string>, i: nat, drop: set<string>)
    requires i < |labels|
    ensures var kept := Distinct(labels[..i], drop);
            var t := Trim(labels[i]);
            Distinct(labels[..i + 1], drop) ==
            if t == "" || Lower(t) in drop || Lower(t) in Keys(kept) then kept else kept + [t]
    ensures Distinct(labels[..i + 1], drop) <= Distinct(labels, drop)
  {
    assert labels[..i + 1][..i] == labels[..i];
    assert labels[..i + 1] + labels[i + 1..] == labels;
    DistinctPrefix(labels[..i + 1], labels[i + 1..], drop);
  }

  // ---- Length in bytes ------------------------------------------------------

  /** The bytes of a character in UTF-8. */
  function Width(c: char): nat {
    if c < '\U{80}' then 1 else if c < '\U{800}' then 2 else if c < '\U{10000}' then 3 else 4
  }

  function Bytes(s: string): nat {
    if s == "" then 0 else Width(s[0]) + Bytes(s[1..])
  }

  lemma {:induction false} LowerBytes(s: string)
    ensures Bytes(Lower(s)) == Bytes(s)
  {
    if s != "" {
      assert Lower(s)[1..] == Lower(s[1..]);
      LowerBytes(s[1..]);
    }
  }

  /** A label longer than all that were kept is none of them. */
  lemma LongerIsNew(kept: seq<string>, t: string, max: int)
    requires forall k | 0 <= k < |kept| :: Bytes(kept[k]) <= max && Trim(kept[k]) == kept[k]
    requires Bytes(t) > max
    ensures Lower(t) !in Keys(kept)
  {
    forall k | 0 <= k < |kept| ensures Key(kept[k]) != Lower(t) {
      LowerBytes(kept[k]);
      LowerBytes(t);
    }
  }
}
