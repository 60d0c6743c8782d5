// Shared vocabulary: optional values, outcomes, and finite sets listed in order.
module Prelude {

  datatype Option<+T> = None | Some(value: T)

  datatype Result<+T, +E> = Ok(value: T) | Err(error: E)

  function Max(a: int, b: int): int {
    if a < b then b else a
  }

  /** The smallest member of a set of IDs. */
  function Least(s: set<nat>): (k: nat)
    requires s != {}
    ensures k in s
    ensures forall x | x in s :: k <= x
  {
    HasLeast(s);
    var k :| k in s && forall x | x in s :: k <= x;
    k
  }

  lemma HasLeast(s: set<nat>)
    requires s != {}
    ensures exists k :: k in s && forall x | x in s :: k <= x
  {
    var k := FindLeast(s);
  }

  lemma FindLeast(s: set<nat>) returns (least: nat)
    requires s != {}
    ensures least in s && forall x | x in s :: least <= x
  {
    var k :| k in s;
    var rest := s - {k};
    least := k;
    if rest != {} {
      var m := FindLeast(rest);
      least := if m < k then m else k;
    }
    forall x | x in s
      ensures least <= x
    {
      assert x == k || x in rest;
    }
  }

  /** The members of s in ascending order: SQL's ORDER BY id. */
  function Ascending(s: set<nat>): (ids: seq<nat>)
    decreases |s|
  {
    if s == {} then [] else [Least(s)] + Ascending(s - {Least(s)})
  }

  predicate StrictlyAscending(ids: seq<nat>) {
    forall i, j | 0 <= i < j < |ids| :: ids[i] < ids[j]
  }

  lemma {:induction false} AscendingLists(s: set<nat>)
    ensures StrictlyAscending(Ascending(s))
    ensures forall x :: x in Ascending(s) <==> x in s
    decreases |s|
  {
    if s != {} {
      var k := Least(s);
      var rest := Ascending(s - {k});
      AscendingLists(s - {k});
      assert forall x :: x in Ascending(s) <==> x == k || x in rest;
      forall i, j | 0 <= i < j < |Ascending(s)| ensures Ascending(s)[i] < Ascending(s)[j] {
        assert Ascending(s)[j] == rest[j - 1] && rest[j - 1] in rest;
        if i > 0 { assert Ascending(s)[i] == rest[i - 1]; }
      }
    }
  }
}
