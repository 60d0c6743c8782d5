// The CBOR decoder that passkeys rely on (internal/webauthn/cbor.go): a subset
// of section 3 of RFC 8949, specified as a function of the remaining bytes and
// the nesting depth.
module Cbor {
  import opened Prelude

  type Byte = b: nat | b < 256

  const MAX_DEPTH := 16
  const MAX_INT64 := 0x7fff_ffff_ffff_ffff

  /** Map keys: integers and text; any other key is refused. */
  datatype Key = IntKey(n: int) | TextKey(text: seq<Byte>)

  datatype Value =
    | Int(n: int)
    | Bytes(bytes: seq<Byte>)
    | Text(text: seq<Byte>)
    | Array(items: seq<Value>)
    | Map(entries: map<Key, Value>)
    | Bool(b: bool)
    | Null

  datatype Malformed = Malformed

  datatype Head = Head(major: nat, arg: nat, rest: seq<Byte>)
  datatype Decoded<+T> = Decoded(value: T, rest: seq<Byte>)

  /** The bytes left after some have been read. */
  predicate Suffix(rest: seq<Byte>, b: seq<Byte>) {
    |rest| <= |b| && rest == b[|b| - |rest|..]
  }

  /** A big-endian unsigned integer. */
  function BigEndian(bs: seq<Byte>): nat {
    if bs == [] then 0 else BigEndian(bs[..|bs| - 1]) * 256 + bs[|bs| - 1]
  }

  /** The bytes of the argument that follow the initial byte, or none for a reserved value. */
  function Width(info: nat): Option<nat> {
    if info == 24 then Some(1) else if info == 25 then Some(2) else if info == 26 then Some(4)
    else if info == 27 then Some(8) else None
  }

  /** decoder.head. */
  function ReadHead(b: seq<Byte>): (r: Result<Head, Malformed>)
    ensures r.Ok? ==> r.value.major < 8 && |r.value.rest| < |b| && Suffix(r.value.rest, b)
  {
    if b == [] then Err(Malformed)
    else
      var major, info := b[0] / 32, b[0] % 32;
      if info < 24 then Ok(Head(major, info, b[1..]))
      else
        var w := Width(info);
        if w.None? || |b| - 1 < w.value then Err(Malformed)
        else Ok(Head(major, BigEndian(b[1..1 + w.value]), b[1 + w.value..]))
  }

  function AsKey(v: Value): Option<Key> {
    match v
    case Int(n) => Some(IntKey(n))
    case Text(s) => Some(TextKey(s))
    case _ => None
  }

  function Simple(arg: nat): Option<Value> {
    if arg == 20 then Some(Bool(false)) else if arg == 21 then Some(Bool(true))
    else if arg == 22 || arg == 23 then Some(Null) else None
  }

  /** decoder.item, entered at a nesting depth. */
  function Item(b: seq<Byte>, depth: nat): (r: Result<Decoded<Value>, Malformed>)
    ensures r.Ok? ==> |r.value.rest| < |b| && Suffix(r.value.rest, b)
    decreases |b|, 0
  {
    if depth + 1 > MAX_DEPTH then Err(Malformed)
    else
      var h := ReadHead(b);
      if h.Err? then Err(Malformed) else Content(h.value.major, h.value.arg, h.value.rest, depth + 1)
  }

  /** What follows the head of an item at a depth: the switch of decoder.item. */
  function Content(major: nat, arg: nat, b: seq<Byte>, depth: nat): (r: Result<Decoded<Value>, Malformed>)
    ensures r.Ok? ==> Suffix(r.value.rest, b)
    decreases |b|, 2
  {
    match major
    case 0 => if arg > MAX_INT64 then Err(Malformed) else Ok(Decoded(Int(arg), b))
    case 1 => if arg > MAX_INT64 then Err(Malformed) else Ok(Decoded(Int(-1 - arg), b))
    case 2 => if arg > |b| then Err(Malformed) else Ok(Decoded(Bytes(b[..arg]), b[arg..]))
    case 3 => if arg > |b| then Err(Malformed) else Ok(Decoded(Text(b[..arg]), b[arg..]))
    case 4 =>
      if arg > |b| then Err(Malformed)
      else
        var xs := Items(b, depth, arg);
        if xs.Err? then Err(Malformed) else Ok(Decoded(Array(xs.value.value), xs.value.rest))
    case 5 =>
      if arg > |b| then Err(Malformed)
      else
        var es := Entries(b, depth, arg, map[]);
        if es.Err? then Err(Malformed) else Ok(Decoded(Map(es.value.value), es.value.rest))
    case 7 => if Simple(arg).None? then Err(Malformed) else Ok(Decoded(Simple(arg).value, b))
    case _ => Err(Malformed)
  }

  /** n items in a row. */
  function Items(b: seq<Byte>, depth: nat, n: nat): (r: Result<Decoded<seq<Value>>, Malformed>)
    ensures r.Ok? ==> |r.value.rest| + n <= |b| && Suffix(r.value.rest, b) && |r.value.value| == n
    decreases |b|, 1
  {
    if n == 0 then Ok(Decoded([], b))
    else
      var x := Item(b, depth);
      if x.Err? then Err(Malformed)
      else
        var xs := Items(x.value.rest, depth, n - 1);
        if xs.Err? then Err(Malformed) else Ok(Decoded([x.value.value] + xs.value.value, xs.value.rest))
  }

  /** n keys with their values, put into a map one after another. */
  function Entries(b: seq<Byte>, depth: nat, n: nat,
                   m: map<Key, Value>): (r: Result<Decoded<map<Key, Value>>, Malformed>)
    ensures r.Ok? ==> |r.value.rest| + 2 * n <= |b| && Suffix(r.value.rest, b)
    decreases |b|, 1
  {
    if n == 0 then Ok(Decoded(m, b))
    else
      var k := Item(b, depth);
      if k.Err? || AsKey(k.value.value).None? then Err(Malformed)
      else
        var v := Item(k.value.rest, depth);
        if v.Err? then Err(Malformed)
        else Entries(v.value.rest, depth, n - 1, m[AsKey(k.value.value).value := v.value.value])
  }

  /** decodeCBOR: one item off the front, and what it leaves. */
  function Decode(b: seq<Byte>): Result<Decoded<Value>, Malformed> {
    Item(b, 0)
  }

  // ---- The decoder as an object -------------------------------------------

  class Decoder {
    var b: seq<Byte>
    var depth: nat

    constructor (bytes: seq<Byte>)
      ensures b == bytes && depth == 0
    {
      b, depth := bytes, 0;
    }

    method TakeHead() returns (r: Result<(nat, nat), Malformed>)
      modifies this`b
      ensures r.Ok? ==> ReadHead(old(b)) == Ok(Head(r.value.0, r.value.1, b))
      ensures r.Err? ==> ReadHead(old(b)).Err?
    {
      if |b| == 0 {
        return Err(Malformed);
      }
      ghost var whole := b;
      var ib := b[0];
      b := b[1..];
      var major, info := ib / 32, ib % 32;
      if info < 24 {
        return Ok((major, info));
      }
      var w := match info case 24 => 1 case 25 => 2 case 26 => 4 case 27 => 8 case _ => 0;
      if w == 0 || |b| < w {
        return Err(Malformed);
      }
      assert b[..w] == whole[1..1 + w] && b[w..] == whole[1 + w..];
      r := Ok((major, BigEndian(b[..w])));
      b := b[w..];
    }

    method TakeItem() returns (r: Result<Value, Malformed>)
      modifies this
      ensures r.Ok? ==> Item(old(b), old(depth)) == Ok(Decoded(r.value, b))
      ensures r.Err? ==> Item(old(b), old(depth)).Err?
      ensures depth == old(depth)
      decreases |b|, 0
    {
      depth := depth + 1;
      if depth > MAX_DEPTH {
        depth := depth - 1;
        return Err(Malformed);
      }
      var h := TakeHead();
      if h.Err? {
        depth := depth - 1;
        return Err(Malformed);
      }
      r := TakeContent(h.value.0, h.value.1);
      depth := depth - 1;
    }

    method TakeContent(major: nat, arg: nat) returns (r: Result<Value, Malformed>)
      modifies this
      ensures r.Ok? ==> Content(major, arg, old(b), old(depth)) == Ok(Decoded(r.value, b))
      ensures r.Err? ==> Content(major, arg, old(b), old(depth)).Err?
      ensures depth == old(depth)
      decreases |b|, 2
    {
      match major {
        case 0 =>
          return if arg > MAX_INT64 then Err(Malformed) else Ok(Int(arg));
        case 1 =>
          return if arg > MAX_INT64 then Err(Malformed) else Ok(Int(-1 - arg));
        case 2 | 3 =>
          if arg > |b| {
            return Err(Malformed);
          }
          var v := b[..arg];
          b := b[arg..];
          return Ok(if major == 3 then Text(v) else Bytes(v));
        case 4 =>
          if arg > |b| {
            return Err(Malformed);
          }
          var xs := TakeItems(arg);
          return if xs.Err? then Err(Malformed) else Ok(Array(xs.value));
        case 5 =>
          if arg > |b| {
            return Err(Malformed);
          }
          var m := TakeEntries(arg);
          return if m.Err? then Err(Malformed) else Ok(Map(m.value));
        case 7 =>
          return if Simple(arg).None? then Err(Malformed) else Ok(Simple(arg).value);
        case _ =>
          return Err(Malformed);
      }
    }

    method TakeItems(n: nat) returns (r: Result<seq<Value>, Malformed>)
      modifies this
      ensures r.Ok? ==> Items(old(b), old(depth), n) == Ok(Decoded(r.value, b))
      ensures r.Err? ==> Items(old(b), old(depth), n).Err?
      ensures depth == old(depth)
      decreases |b|, 1
    {
      hide Item, Items, Content, Entries, Suffix, Prepended;
      var out: seq<Value> := [];
      var i := 0;
      PrependedNothing(Items(b, depth, n));
      while i < n
        invariant 0 <= i <= n && depth == old(depth) && |b| <= |old(b)|
        invariant Items(old(b), depth, n) == Prepended(out, Items(b, depth, n - i))
      {
        ItemsStep(out, b, depth, n - i);
        var x := TakeItem();
        if x.Err? {
          return Err(Malformed);
        }
        out := out + [x.value];
        i := i + 1;
      }
      ItemsDone(out, b, depth);
      return Ok(out);
    }

    method TakeEntries(n: nat) returns (r: Result<map<Key, Value>, Malformed>)
      modifies this
      ensures r.Ok? ==> Entries(old(b), old(depth), n, map[]) == Ok(Decoded(r.value, b))
      ensures r.Err? ==> Entries(old(b), old(depth), n, map[]).Err?
      ensures depth == old(depth)
      decreases |b|, 1
    {
      hide Item, Content, Items, Suffix;
      var out: map<Key, Value> := map[];
      var i := 0;
      while i < n
        invariant 0 <= i <= n && depth == old(depth) && |b| <= |old(b)|
        invariant Entries(old(b), depth, n, map[]) == Entries(b, depth, n - i, out)
      {
        var k := TakeItem();
        if k.Err? || AsKey(k.value).None? {
          return Err(Malformed);
        }
        var v := TakeItem();
        if v.Err? {
          return Err(Malformed);
        }
        out := out[AsKey(k.value).value := v.value];
        i := i + 1;
      }
      return Ok(out);
    }
  }

  method DecodeBytes(bytes: seq<Byte>) returns (r: Result<Decoded<Value>, Malformed>)
    ensures r == Decode(bytes)
  {
    var d := new Decoder(bytes);
    var v := d.TakeItem();
    r := if v.Err? then Err(Malformed) else Ok(Decoded(v.value, d.b));
  }

  /** Items already read, put before those still to come. */
  ghost function Prepended(xs: seq<Value>,
                           r: Result<Decoded<seq<Value>>, Malformed>): Result<Decoded<seq<Value>>, Malformed> {
    if r.Err? then Err(Malformed) else Ok(Decoded(xs + r.value.value, r.value.rest))
  }

  lemma PrependedNothing(r: Result<Decoded<seq<Value>>, Malformed>)
    ensures Prepended([], r) == r
  {
    if r.Ok? {
      assert [] + r.value.value == r.value.value;
    } else {
      assert r.error.Malformed?;
    }
  }

  /** Reading one more of n items moves it from those to come to those read. */
  lemma ItemsStep(xs: seq<Value>, b: seq<Byte>, depth: nat, n: nat)
    requires n > 0
    ensures Item(b, depth).Err? ==> Prepended(xs, Items(b, depth, n)).Err?
    ensures Item(b, depth).Ok? ==>
              Prepended(xs, Items(b, depth, n)) ==
              Prepended(xs + [Item(b, depth).value.value], Items(Item(b, depth).value.rest, depth, n - 1))
  {
    hide Item;
    if Item(b, depth).Ok? {
      var x := Item(b, depth).value;
      var r := Items(x.rest, depth, n - 1);
      if r.Ok? {
        assert xs + ([x.value] + r.value.value) == xs + [x.value] + r.value.value;
      }
    }
  }

  lemma ItemsDone(xs: seq<Value>, b: seq<Byte>, depth: nat)
    ensures Prepended(xs, Items(b, depth, 0)) == Ok(Decoded(xs, b))
  {
    assert xs + [] == xs;
  }

  // ---- Decoding looks at nothing past the item ----------------------------

  /** Reading b down to rest and c down to tail reads the same bytes. */
  ghost predicate SameRead(b: seq<Byte>, rest: seq<Byte>, c: seq<Byte>, tail: seq<Byte>) {
    && Suffix(rest, b)
    && Suffix(tail, c)
    && b[..|b| - |rest|] == c[..|c| - |tail|]
  }

  /** The same reading stopped half-way. */
  lemma SplitRead(b: seq<Byte>, mid: seq<Byte>, rest: seq<Byte>, c: seq<Byte>,
                  tail: seq<Byte>) returns (cmid: seq<Byte>)
    requires SameRead(b, rest, c, tail) && Suffix(mid, b) && Suffix(rest, mid)
    ensures SameRead(b, mid, c, cmid) && SameRead(mid, rest, cmid, tail)
  {
    var n, k := |b| - |rest|, |b| - |mid|;
    assert |c| - |tail| == n by {
      assert |b[..n]| == n && |c[..|c| - |tail|]| == |c| - |tail|;
    }
    cmid := c[k..];
    assert b[..k] == b[..n][..k] && c[..k] == c[..n][..k];
    assert mid[..n - k] == b[..n][k..] && cmid[..n - k] == c[..n][k..];
    assert cmid[|cmid| - |tail|..] == c[n..];
  }

  lemma HeadLocal(b: seq<Byte>, c: seq<Byte>, tail: seq<Byte>)
    requires ReadHead(b).Ok? && SameRead(b, ReadHead(b).value.rest, c, tail)
    ensures ReadHead(c) == Ok(ReadHead(b).value.(rest := tail))
  {
    var n := |b| - |ReadHead(b).value.rest|;
    assert |c| - |tail| == n by {
      assert |b[..n]| == n && |c[..|c| - |tail|]| == |c| - |tail|;
    }
    assert b[0] == b[..n][0] == c[..n][0] == c[0];
    var info := b[0] % 32;
    if info >= 24 {
      assert n == 1 + Width(info).value;
      assert b[1..n] == b[..n][1..] && c[1..n] == c[..n][1..];
    }
  }

  lemma StringLocal(b: seq<Byte>, c: seq<Byte>, tail: seq<Byte>, n: nat)
    requires n <= |b| && SameRead(b, b[n..], c, tail)
    ensures n <= |c| && b[..n] == c[..n] && tail == c[n..]
  {
    assert |c| - |tail| == n by {
      assert |b[..n]| == n && |c[..|c| - |tail|]| == |c| - |tail|;
    }
  }

  /**
   * Replacing the bytes after an item changes neither the item nor where it ends, although the guards
   * compare lengths with all that remains.
   */
  lemma {:induction false} ItemLocal(b: seq<Byte>, c: seq<Byte>, tail: seq<Byte>, depth: nat)
    requires Item(b, depth).Ok? && SameRead(b, Item(b, depth).value.rest, c, tail)
    ensures Item(c, depth) == Ok(Decoded(Item(b, depth).value.value, tail))
    decreases |b|, 0
  {
    hide Content, Items, Entries, ReadHead, SameRead;
    var h := ReadHead(b).value;
    var mid := SplitRead(b, h.rest, Item(b, depth).value.rest, c, tail);
    HeadLocal(b, c, mid);
    ContentLocal(h.major, h.arg, h.rest, mid, tail, depth + 1);
  }

  lemma {:induction false} ContentLocal(major: nat, arg: nat, b: seq<Byte>, c: seq<Byte>, tail: seq<Byte>, depth: nat)
    requires Content(major, arg, b, depth).Ok? && SameRead(b, Content(major, arg, b, depth).value.rest, c, tail)
    ensures Content(major, arg, c, depth) == Ok(Decoded(Content(major, arg, b, depth).value.value, tail))
    decreases |b|, 3
  {
    hide Item, Items, Entries, SameRead;
    match major {
      case 2 | 3 =>
        StringLocal(b, c, tail, arg);
      case 4 =>
        ItemsLocal(b, c, tail, depth, arg);
      case 5 =>
        EntriesLocal(b, c, tail, depth, arg, map[]);
      case _ =>
        StringLocal(b, c, tail, 0);
    }
  }

  lemma {:induction false} ItemsLocal(b: seq<Byte>, c: seq<Byte>, tail: seq<Byte>, depth: nat, n: nat)
    requires Items(b, depth, n).Ok? && SameRead(b, Items(b, depth, n).value.rest, c, tail)
    ensures Items(c, depth, n) == Ok(Decoded(Items(b, depth, n).value.value, tail)) && n <= |c|
    decreases |b|, 2
  {
    hide Item, Content, Entries, SameRead;
    if n == 0 {
      StringLocal(b, c, tail, 0);
    } else {
      var x := Item(b, depth).value;
      var mid := SplitRead(b, x.rest, Items(b, depth, n).value.rest, c, tail);
      ItemLocal(b, c, mid, depth);
      ItemsLocal(x.rest, mid, tail, depth, n - 1);
    }
  }

  /** One entry taken off the front. */
  lemma EntriesStep(b: seq<Byte>, depth: nat, n: nat, m: map<Key, Value>)
    requires n > 0
    ensures var k := Item(b, depth);
            && (Entries(b, depth, n, m).Ok? ==>
                  k.Ok? && AsKey(k.value.value).Some? && Item(k.value.rest, depth).Ok?)
            && (k.Ok? && AsKey(k.value.value).Some? && Item(k.value.rest, depth).Ok? ==>
                  var v := Item(k.value.rest, depth).value;
                  Entries(b, depth, n, m) == Entries(v.rest, depth, n - 1, m[AsKey(k.value.value).value := v.value]))
  {
    hide Item;
  }

  /** A key and its value in a row. */
  lemma {:induction false} EntryLocal(b: seq<Byte>, c: seq<Byte>, tail: seq<Byte>, depth: nat) returns (mid: seq<Byte>)
    requires Item(b, depth).Ok? && Item(Item(b, depth).value.rest, depth).Ok?
    requires SameRead(b, Item(Item(b, depth).value.rest, depth).value.rest, c, tail)
    ensures Item(c, depth) == Ok(Decoded(Item(b, depth).value.value, mid))
    ensures Item(mid, depth) == Ok(Decoded(Item(Item(b, depth).value.rest, depth).value.value, tail))
    ensures |tail| + 2 <= |c|
    decreases |b|, 1
  {
    hide Item, SameRead, Suffix;
    var x := Item(b, depth).value;
    var y := Item(x.rest, depth).value;
    mid := SplitRead(b, x.rest, y.rest, c, tail);
    ItemLocal(b, c, mid, depth);
    ItemLocal(x.rest, mid, tail, depth);
  }

  lemma {:induction false} EntriesLocal(b: seq<Byte>, c: seq<Byte>, tail: seq<Byte>, depth: nat, n: nat,
                                        m: map<Key, Value>)
    requires Entries(b, depth, n, m).Ok? && SameRead(b, Entries(b, depth, n, m).value.rest, c, tail)
    ensures Entries(c, depth, n, m) == Ok(Decoded(Entries(b, depth, n, m).value.value, tail)) && n <= |c|
    decreases |b|, 2
  {
    hide Item, SameRead;
    if n == 0 {
      StringLocal(b, c, tail, 0);
    } else {
      hide Entries, AsKey, Suffix;
      EntriesStep(b, depth, n, m);
      var rest := Entries(b, depth, n, m).value.rest;
      var x := Item(b, depth).value;
      var y := Item(x.rest, depth).value;
      SuffixTransitive(y.rest, x.rest, b);
      var late := SplitRead(b, y.rest, rest, c, tail);
      var mid := EntryLocal(b, c, late, depth);
      EntriesStep(c, depth, n, m);
      EntriesLocal(y.rest, late, tail, depth, n - 1, m[AsKey(x.value).value := y.value]);
    }
  }

  lemma SuffixTransitive(a: seq<Byte>, b: seq<Byte>, c: seq<Byte>)
    requires Suffix(a, b) && Suffix(b, c)
    ensures Suffix(a, c)
  {
    assert a == c[|c| - |b|..][|b| - |a|..];
  }

  /** The bytes of the first item alone decode to it with nothing left, and followed by any other bytes leave those. */
  lemma DecodeIgnoresTail(b: seq<Byte>, tail: seq<Byte>)
    requires Decode(b).Ok?
    ensures var r := Decode(b).value;
            && |r.rest| < |b|
            && var used := b[..|b| - |r.rest|];
            && b == used + r.rest
            && Decode(used) == Ok(Decoded(r.value, []))
            && Decode(used + tail) == Ok(Decoded(r.value, tail))
  {
    hide Item;
    var r := Decode(b).value;
    var used := b[..|b| - |r.rest|];
    assert (used + tail)[..|used|] == used && (used + tail)[|used|..] == tail;
    assert used[..|used|] == used && used[|used|..] == [];
    ItemLocal(b, used, [], 0);
    ItemLocal(b, used + tail, tail, 0);
  }
}
