// A specification encoder for the CBOR subset: shortest heads (section 4.2.1
// of RFC 8949) and one-byte simple values. The decoder inverts it exactly on
// the values nested at most 16 deep whose integers fit int64.
module CborEncoding {
  import opened Prelude
  import opened Cbor

  const TWO_64 := 0x1_0000_0000_0000_0000

  /** A value with its map entries in the order they are written. */
  datatype Tree =
    | IntTree(n: int)
    | BytesTree(bytes: seq<Byte>)
    | TextTree(text: seq<Byte>)
    | ArrayTree(items: seq<Tree>)
    | MapTree(entries: seq<Entry>)
    | BoolTree(b: bool)
    | NullTree

  datatype Entry = Entry(key: Key, value: Tree)

  function Bytes256(w: nat): (p: nat)
    ensures p > 0
  {
    if w == 0 then 1 else 256 * Bytes256(w - 1)
  }

  function BigEndianOf(n: nat, w: nat): (bs: seq<Byte>)
    ensures |bs| == w
  {
    if w == 0 then [] else BigEndianOf(n / 256, w - 1) + [n % 256]
  }

  lemma {:induction false} BigEndianRoundTrip(n: nat, w: nat)
    requires n < Bytes256(w)
    ensures BigEndian(BigEndianOf(n, w)) == n
  {
    if w > 0 {
      BigEndianRoundTrip(n / 256, w - 1);
      assert BigEndianOf(n, w)[..w - 1] == BigEndianOf(n / 256, w - 1);
    }
  }

  /** The shortest head for an argument. */
  function EncodeHead(major: nat, arg: nat): seq<Byte>
    requires major < 8
  {
    if arg < 24 then [major * 32 + arg]
    else if arg < 0x100 then [major * 32 + 24] + BigEndianOf(arg, 1)
    else if arg < 0x1_0000 then [major * 32 + 25] + BigEndianOf(arg, 2)
    else if arg < 0x1_0000_0000 then [major * 32 + 26] + BigEndianOf(arg, 4)
    else [major * 32 + 27] + BigEndianOf(arg, 8)
  }

  lemma WideHeadRoundTrip(major: nat, info: nat, arg: nat, w: nat, rest: seq<Byte>)
    requires major < 8 && info < 32 && Width(info) == Some(w) && arg < Bytes256(w)
    ensures ReadHead([major * 32 + info] + BigEndianOf(arg, w) + rest) == Ok(Head(major, arg, rest))
  {
    hide BigEndian, BigEndianOf, Bytes256;
    var b := [major * 32 + info] + BigEndianOf(arg, w) + rest;
    BigEndianRoundTrip(arg, w);
    assert b[0] == major * 32 + info;
    assert b[0] / 32 == major && b[0] % 32 == info;
    assert b[1..1 + w] == BigEndianOf(arg, w) && b[1 + w..] == rest;
  }

  lemma Widths()
    ensures Bytes256(1) == 0x100 && Bytes256(2) == 0x1_0000 && Bytes256(4) == 0x1_0000_0000 && Bytes256(8) == TWO_64
  {
    assert Bytes256(4) == 0x1_0000_0000;
    assert Bytes256(6) == 0x1_0000_0000_0000;
  }

  lemma HeadRoundTrip(major: nat, arg: nat, rest: seq<Byte>)
    requires major < 8 && arg < TWO_64
    ensures ReadHead(EncodeHead(major, arg) + rest) == Ok(Head(major, arg, rest))
  {
    hide ReadHead, BigEndian, BigEndianOf, Bytes256;
    Widths();
    if arg < 24 {
      ShortHeadRoundTrip(major, arg, rest);
    } else if arg < 0x100 {
      WideHeadRoundTrip(major, 24, arg, 1, rest);
    } else if arg < 0x1_0000 {
      WideHeadRoundTrip(major, 25, arg, 2, rest);
    } else if arg < 0x1_0000_0000 {
      WideHeadRoundTrip(major, 26, arg, 4, rest);
    } else {
      WideHeadRoundTrip(major, 27, arg, 8, rest);
    }
  }

  /** A head need not be the shortest: any of the four widths is read, as long as the argument's bytes are there. */
  lemma AnyHead(b: seq<Byte>)
    ensures var info := if b == [] then 31 else b[0] % 32;
            var w := if info == 24 then 1 else if info == 25 then 2 else if info == 26 then 4 else 8;
            && (ReadHead(b).Ok? <==> b != [] && (info < 24 || (info < 28 && 1 + w <= |b|)))
            && (ReadHead(b).Ok? ==>
                  ReadHead(b).value == if info < 24 then Head(b[0] / 32, info, b[1..])
                                       else Head(b[0] / 32, BigEndian(b[1..1 + w]), b[1 + w..]))
  {
    hide BigEndian;
  }

  /** Of the simple values only the four that JSON has are read, by whatever width; tags never are. */
  lemma SimpleSays(b: seq<Byte>, depth: nat)
    requires depth < MAX_DEPTH && ReadHead(b).Ok? && ReadHead(b).value.major >= 6
    ensures var h := ReadHead(b).value;
            && (Item(b, depth).Ok? <==> h.major == 7 && 20 <= h.arg <= 23)
            && (Item(b, depth).Ok? ==>
                  Item(b, depth).value == Decoded(if h.arg == 20 then Bool(false)
                                                  else if h.arg == 21 then Bool(true)
                                                  else Null, h.rest))
  {
    hide ReadHead;
  }

  lemma ShortHeadRoundTrip(major: nat, arg: nat, rest: seq<Byte>)
    requires major < 8 && arg < 24
    ensures ReadHead([major * 32 + arg] + rest) == Ok(Head(major, arg, rest))
  {
    var b := [major * 32 + arg] + rest;
    assert b[0] / 32 == major && b[0] % 32 == arg;
    assert b[1..] == rest;
  }

  function KeyTree(k: Key): Tree {
    match k
    case IntKey(n) => IntTree(n)
    case TextKey(s) => TextTree(s)
  }

  function Encode(t: Tree): (bs: seq<Byte>)
    ensures |bs| > 0
  {
    match t
    case IntTree(n) => if n >= 0 then EncodeHead(0, n) else EncodeHead(1, -1 - n)
    case BytesTree(s) => EncodeHead(2, |s|) + s
    case TextTree(s) => EncodeHead(3, |s|) + s
    case ArrayTree(xs) => EncodeHead(4, |xs|) + EncodeItems(xs)
    case MapTree(es) => EncodeHead(5, |es|) + EncodeEntries(es)
    case BoolTree(b) => [7 * 32 + if b then 21 else 20]
    case NullTree => [7 * 32 + 22]
  }

  function EncodeKey(k: Key): (bs: seq<Byte>)
    ensures |bs| > 0
  {
    match k
    case IntKey(n) => if n >= 0 then EncodeHead(0, n) else EncodeHead(1, -1 - n)
    case TextKey(s) => EncodeHead(3, |s|) + s
  }

  function EncodeItems(xs: seq<Tree>): (bs: seq<Byte>)
    ensures |bs| >= |xs|
  {
    if xs == [] then [] else Encode(xs[0]) + EncodeItems(xs[1..])
  }

  function EncodeEntries(es: seq<Entry>): (bs: seq<Byte>)
    ensures |bs| >= |es|
  {
    if es == [] then [] else EncodeEntry(es[0]) + EncodeEntries(es[1..])
  }

  function EncodeEntry(e: Entry): (bs: seq<Byte>)
    ensures |bs| > 0
  {
    match e
    case Entry(k, v) => EncodeKey(k) + Encode(v)
  }

  function Denote(t: Tree): Value {
    match t
    case IntTree(n) => Int(n)
    case BytesTree(s) => Bytes(s)
    case TextTree(s) => Text(s)
    case ArrayTree(xs) => Array(DenoteItems(xs))
    case MapTree(es) => Map(DenoteEntries(es, map[]))
    case BoolTree(b) => Bool(b)
    case NullTree => Null
  }

  function DenoteItems(xs: seq<Tree>): seq<Value> {
    if xs == [] then [] else [Denote(xs[0])] + DenoteItems(xs[1..])
  }

  /** Entries put into a map in order: with distinct keys, exactly the entries. */
  function DenoteEntries(es: seq<Entry>, m: map<Key, Value>): map<Key, Value> {
    if es == [] then m else DenoteEntries(es[1..], m[es[0].key := DenoteEntry(es[0])])
  }

  function DenoteEntry(e: Entry): Value {
    match e
    case Entry(_, v) => Denote(v)
  }

  /** Every length and integer has a head. */
  predicate Heads(t: Tree) {
    match t
    case IntTree(n) => -TWO_64 <= n < TWO_64
    case BytesTree(s) => |s| < TWO_64
    case TextTree(s) => |s| < TWO_64
    case ArrayTree(xs) => |xs| < TWO_64 && forall x <- xs :: Heads(x)
    case MapTree(es) =>
      |es| < TWO_64
      && (forall e <- es :: assert e == Entry(e.key, e.value); KeyHeads(e.key) && Heads(e.value))
    case _ => true
  }

  predicate KeyHeads(k: Key) {
    match k
    case IntKey(n) => -TWO_64 <= n < TWO_64
    case TextKey(s) => |s| < TWO_64
  }

  /** Every integer, key or value, fits int64. */
  predicate Int64s(t: Tree) {
    match t
    case IntTree(n) => IsInt64(n)
    case ArrayTree(xs) => forall x <- xs :: Int64s(x)
    case MapTree(es) =>
      forall e <- es :: assert e == Entry(e.key, e.value); (e.key.IntKey? ==> IsInt64(e.key.n)) && Int64s(e.value)
    case _ => true
  }

  predicate IsInt64(n: int) {
    -0x8000_0000_0000_0000 <= n < 0x8000_0000_0000_0000
  }

  /** Nested at most some levels deep, a scalar being one level; a map's keys are one level below it. */
  predicate Shallow(t: Tree, levels: nat) {
    && levels > 0
    && match t
       case ArrayTree(xs) => (forall x <- xs :: Shallow(x, levels - 1))
       case MapTree(es) => (forall e <- es :: levels > 1 && Shallow(e.value, levels - 1))
       case _ => true
  }

  predicate Fits(t: Tree, levels: nat) {
    Int64s(t) && Shallow(t, levels)
  }

  lemma FitsNothing(t: Tree)
    ensures !Fits(t, 0)
  {
  }

  lemma FitsLeaf(t: Tree, levels: nat)
    requires levels > 0
    ensures t.IntTree? ==> (Fits(t, levels) <==> IsInt64(t.n))
    ensures t.BytesTree? || t.TextTree? || t.BoolTree? || t.NullTree? ==> Fits(t, levels)
  {
  }

  lemma FitsArray(xs: seq<Tree>, levels: nat)
    requires levels > 0
    ensures Fits(ArrayTree(xs), levels) <==> forall x <- xs :: Fits(x, levels - 1)
  {
    var t := ArrayTree(xs);
    assert Int64s(t) <==> forall x <- xs :: Int64s(x);
    assert Shallow(t, levels) <==> forall x <- xs :: Shallow(x, levels - 1);
    if forall x <- xs :: Fits(x, levels - 1) {
      assert forall x <- xs :: Int64s(x) && Shallow(x, levels - 1);
    }
  }

  lemma FitsMap(es: seq<Entry>, levels: nat)
    requires levels > 0
    ensures Fits(MapTree(es), levels) <==>
            forall e <- es :: Fits(KeyTree(e.key), levels - 1) && Fits(e.value, levels - 1)
  {
    var t := MapTree(es);
    assert Int64s(t) <==> forall e <- es :: (e.key.IntKey? ==> IsInt64(e.key.n)) && Int64s(e.value);
    assert Shallow(t, levels) <==> forall e <- es :: levels > 1 && Shallow(e.value, levels - 1);
    forall e | e in es
      ensures Fits(KeyTree(e.key), levels - 1) <==> levels > 1 && (e.key.IntKey? ==> IsInt64(e.key.n))
    {
      if levels > 1 {
        FitsLeaf(KeyTree(e.key), levels - 1);
      } else {
        FitsNothing(KeyTree(e.key));
      }
    }
    if forall e <- es :: Fits(KeyTree(e.key), levels - 1) && Fits(e.value, levels - 1) {
      assert forall e <- es :: Int64s(e.value) && Shallow(e.value, levels - 1);
    }
  }

  lemma AfterHead(head: seq<Byte>, major: nat, arg: nat, body: seq<Byte>, depth: nat)
    requires depth < MAX_DEPTH && ReadHead(head + body) == Ok(Head(major, arg, body))
    ensures Item(head + body, depth) == Content(major, arg, body, depth + 1)
  {
    hide ReadHead, Content;
  }

  lemma LeafRoundTrip(t: Tree, rest: seq<Byte>, depth: nat)
    requires Heads(t) && depth < MAX_DEPTH && !t.ArrayTree? && !t.MapTree?
    ensures Fits(t, MAX_DEPTH - depth) ==> Item(Encode(t) + rest, depth) == Ok(Decoded(Denote(t), rest))
    ensures !Fits(t, MAX_DEPTH - depth) ==> Item(Encode(t) + rest, depth).Err?
  {
    hide ReadHead, EncodeHead, Items, Entries, Fits, Item;
    FitsLeaf(t, MAX_DEPTH - depth);
    match t {
      case IntTree(n) =>
        var major, arg := if n >= 0 then 0 else 1, if n >= 0 then n else -1 - n;
        HeadRoundTrip(major, arg, rest);
        AfterHead(EncodeHead(major, arg), major, arg, rest, depth);
      case BytesTree(s) =>
        StringRoundTrip(2, s, rest);
        AfterHead(EncodeHead(2, |s|), 2, |s|, s + rest, depth);
      case TextTree(s) =>
        StringRoundTrip(3, s, rest);
        AfterHead(EncodeHead(3, |s|), 3, |s|, s + rest, depth);
      case BoolTree(b) =>
        var arg := if b then 21 else 20;
        ShortHeadRoundTrip(7, arg, rest);
        AfterHead([7 * 32 + arg], 7, arg, rest, depth);
      case NullTree =>
        ShortHeadRoundTrip(7, 22, rest);
        AfterHead([7 * 32 + 22], 7, 22, rest, depth);
    }
  }

  /**
   * Decoding an encoding, whatever follows it, gives the value and what follows, exactly when the
   * integers fit int64 and the nesting fits the levels left.
   */
  lemma {:induction false} RoundTrip(t: Tree, rest: seq<Byte>, depth: nat)
    requires Heads(t) && depth <= MAX_DEPTH
    ensures Fits(t, MAX_DEPTH - depth) ==> Item(Encode(t) + rest, depth) == Ok(Decoded(Denote(t), rest))
    ensures !Fits(t, MAX_DEPTH - depth) ==> Item(Encode(t) + rest, depth).Err?
    decreases t, 2
  {
    hide ReadHead, EncodeHead, EncodeItems, EncodeEntries, DenoteItems, DenoteEntries, Items, Entries, Fits, Item;
    var levels := MAX_DEPTH - depth;
    if levels == 0 {
      FitsNothing(t);
      TooDeep(Encode(t) + rest);
    } else if t.ArrayTree? {
      var xs := t.items;
      var body := EncodeItems(xs) + rest;
      assert Encode(t) + rest == EncodeHead(4, |xs|) + body;
      HeadRoundTrip(4, |xs|, body);
      AfterHead(EncodeHead(4, |xs|), 4, |xs|, body, depth);
      FitsArray(xs, levels);
      ItemsRoundTrip(t, xs, rest, depth + 1);
    } else if t.MapTree? {
      var es := t.entries;
      var body := EncodeEntries(es) + rest;
      assert Encode(t) + rest == EncodeHead(5, |es|) + body;
      HeadRoundTrip(5, |es|, body);
      AfterHead(EncodeHead(5, |es|), 5, |es|, body, depth);
      EntriesBelow(t, es);
      FitsMap(es, levels);
      EntriesRoundTrip(t, es, rest, depth + 1, map[]);
    } else {
      LeafRoundTrip(t, rest, depth);
    }
  }

  lemma TooDeep(b: seq<Byte>)
    ensures Item(b, MAX_DEPTH).Err?
  {
  }

  lemma EntriesBelow(t: Tree, es: seq<Entry>)
    requires t == MapTree(es)
    ensures forall e <- es :: e.value < t
  {
    forall e | e in es
      ensures e.value < t
    {
      assert e == Entry(e.key, e.value);
    }
  }

  lemma StringRoundTrip(major: nat, s: seq<Byte>, rest: seq<Byte>)
    requires major < 8 && |s| < TWO_64
    ensures EncodeHead(major, |s|) + s + rest == EncodeHead(major, |s|) + (s + rest)
    ensures ReadHead(EncodeHead(major, |s|) + (s + rest)) == Ok(Head(major, |s|, s + rest))
    ensures (s + rest)[..|s|] == s && (s + rest)[|s|..] == rest
  {
    assert EncodeHead(major, |s|) + s + rest == EncodeHead(major, |s|) + (s + rest);
    HeadRoundTrip(major, |s|, s + rest);
  }

  lemma {:induction false} ItemsRoundTrip(t: Tree, xs: seq<Tree>, rest: seq<Byte>, depth: nat)
    requires depth <= MAX_DEPTH
    requires forall x <- xs :: x < t && Heads(x)
    ensures (forall x <- xs :: Fits(x, MAX_DEPTH - depth)) ==>
              Items(EncodeItems(xs) + rest, depth, |xs|) == Ok(Decoded(DenoteItems(xs), rest))
    ensures !(forall x <- xs :: Fits(x, MAX_DEPTH - depth)) ==> Items(EncodeItems(xs) + rest, depth, |xs|).Err?
    decreases t, 0, |xs|
  {
    hide Encode, Denote, Item, Heads, Fits;
    if xs == [] {
      assert EncodeItems(xs) + rest == rest;
    } else {
      var tail := EncodeItems(xs[1..]) + rest;
      assert xs[0] in xs;
      assert EncodeItems(xs) + rest == Encode(xs[0]) + tail;
      RoundTrip(xs[0], tail, depth);
      ItemsRoundTrip(t, xs[1..], rest, depth);
      assert forall x :: x in xs <==> x == xs[0] || x in xs[1..];
    }
  }

  lemma {:induction false} EntriesRoundTrip(t: Tree, es: seq<Entry>, rest: seq<Byte>, depth: nat, m: map<Key, Value>)
    requires depth <= MAX_DEPTH
    requires forall e <- es :: e.value < t && KeyHeads(e.key) && Heads(e.value)
    ensures (forall e <- es :: Fits(KeyTree(e.key), MAX_DEPTH - depth) && Fits(e.value, MAX_DEPTH - depth)) ==>
              Entries(EncodeEntries(es) + rest, depth, |es|, m) == Ok(Decoded(DenoteEntries(es, m), rest))
    ensures !(forall e <- es :: Fits(KeyTree(e.key), MAX_DEPTH - depth) && Fits(e.value, MAX_DEPTH - depth)) ==>
              Entries(EncodeEntries(es) + rest, depth, |es|, m).Err?
    decreases t, 0, |es|
  {
    hide Encode, EncodeKey, Denote, Item, Heads, Fits, KeyTree;
    if es == [] {
      assert EncodeEntries(es) + rest == rest;
    } else {
      var k, v := es[0].key, es[0].value;
      var tail := EncodeEntries(es[1..]) + rest;
      assert es[0] in es;
      assert EncodeEntries(es) + rest == EncodeKey(k) + (Encode(v) + tail);
      KeyRoundTrip(k, Encode(v) + tail, depth);
      RoundTrip(v, tail, depth);
      EntriesRoundTrip(t, es[1..], rest, depth, m[k := Denote(v)]);
      assert forall e :: e in es <==> e == es[0] || e in es[1..];
    }
  }

  lemma KeyRoundTrip(k: Key, rest: seq<Byte>, depth: nat)
    requires KeyHeads(k) && depth <= MAX_DEPTH
    ensures Fits(KeyTree(k), MAX_DEPTH - depth) ==>
              Item(EncodeKey(k) + rest, depth) == Ok(Decoded(Denote(KeyTree(k)), rest))
              && AsKey(Denote(KeyTree(k))) == Some(k)
    ensures !Fits(KeyTree(k), MAX_DEPTH - depth) ==> Item(EncodeKey(k) + rest, depth).Err?
  {
    hide ReadHead, EncodeHead, Fits;
    var levels := MAX_DEPTH - depth;
    if levels == 0 {
      FitsNothing(KeyTree(k));
    } else {
      FitsLeaf(KeyTree(k), levels);
    }
    match k {
      case IntKey(n) =>
        HeadRoundTrip(if n >= 0 then 0 else 1, if n >= 0 then n else -1 - n, rest);
      case TextKey(s) =>
        StringRoundTrip(3, s, rest);
    }
  }

  // ---- What decodes at all -------------------------------------------------

  function KeyValue(k: Key): Value {
    match k
    case IntKey(n) => Int(n)
    case TextKey(s) => Text(s)
  }

  /** A value of at most some levels whose integers fit int64 and whose lengths fit a head. */
  ghost predicate Supported(v: Value, levels: nat)
    decreases levels
  {
    && levels > 0
    && match v
       case Int(n) => IsInt64(n)
       case Bytes(s) => |s| < TWO_64
       case Text(s) => |s| < TWO_64
       case Array(xs) => |xs| < TWO_64 && (forall x <- xs :: Supported(x, levels - 1))
       case Map(m) => |m| < TWO_64
                      && (forall k <- m :: Supported(KeyValue(k), levels - 1) && Supported(m[k], levels - 1))
       case _ => true
  }

  lemma {:induction false} BigEndianBound(bs: seq<Byte>)
    ensures BigEndian(bs) < Bytes256(|bs|)
  {
    if bs != [] {
      BigEndianBound(bs[..|bs| - 1]);
    }
  }

  lemma HeadBound(b: seq<Byte>)
    requires ReadHead(b).Ok?
    ensures ReadHead(b).value.arg < TWO_64
  {
    hide BigEndian, Bytes256;
    Widths();
    var info := b[0] % 32;
    if info >= 24 {
      BigEndianBound(b[1..1 + Width(info).value]);
    }
  }

  lemma {:induction false} DecodedIsSupported(b: seq<Byte>, depth: nat)
    requires Item(b, depth).Ok?
    ensures depth < MAX_DEPTH && Supported(Item(b, depth).value.value, MAX_DEPTH - depth)
    decreases |b|, 0
  {
    hide ReadHead, Items, Entries;
    HeadBound(b);
    var h := ReadHead(b).value;
    match h.major {
      case 4 => ItemsSupported(h.rest, depth + 1, h.arg);
      case 5 => EntriesSupported(h.rest, depth + 1, h.arg, map[]);
      case _ =>
    }
  }

  lemma {:induction false} ItemsSupported(b: seq<Byte>, depth: nat, n: nat)
    requires depth <= MAX_DEPTH && Items(b, depth, n).Ok?
    ensures forall x <- Items(b, depth, n).value.value :: Supported(x, MAX_DEPTH - depth)
    decreases |b|, 1
  {
    hide Item, Supported;
    if n > 0 {
      DecodedIsSupported(b, depth);
      ItemsSupported(Item(b, depth).value.rest, depth, n - 1);
    }
  }

  lemma {:induction false} EntriesSupported(b: seq<Byte>, depth: nat, n: nat, m: map<Key, Value>)
    requires depth <= MAX_DEPTH && Entries(b, depth, n, m).Ok?
    requires forall k <- m :: Supported(KeyValue(k), MAX_DEPTH - depth) && Supported(m[k], MAX_DEPTH - depth)
    ensures var r := Entries(b, depth, n, m).value.value;
            |r| <= |m| + n && forall k <- r ::
              Supported(KeyValue(k), MAX_DEPTH - depth) && Supported(r[k], MAX_DEPTH - depth)
    decreases |b|, 1
  {
    hide Item, Supported, Entries;
    if n == 0 {
      assert Entries(b, depth, 0, m) == Ok(Decoded(m, b)) by { NoEntries(b, depth, m); }
    } else {
      EntriesStep(b, depth, n, m);
      var k := Item(b, depth).value;
      DecodedIsSupported(b, depth);
      DecodedIsSupported(k.rest, depth);
      var v := Item(k.rest, depth).value;
      EntriesSupported(v.rest, depth, n - 1, m[AsKey(k.value).value := v.value]);
    }
  }

  lemma NoEntries(b: seq<Byte>, depth: nat, m: map<Key, Value>)
    ensures Entries(b, depth, 0, m) == Ok(Decoded(m, b))
  {
  }

  /** A supported value has a tree, so an encoding, of the same depth. */
  lemma {:induction false} TreeOf(v: Value, levels: nat) returns (t: Tree)
    requires Supported(v, levels)
    ensures Denote(t) == v && Heads(t) && Fits(t, levels)
    decreases levels, 0
  {
    match v {
      case Int(n) => t := IntTree(n);
      case Bytes(s) => t := BytesTree(s);
      case Text(s) => t := TextTree(s);
      case Bool(b) => t := BoolTree(b);
      case Null => t := NullTree;
      case Array(xs) =>
        var ts := TreesOf(xs, levels - 1);
        FitsArray(ts, levels);
        t := ArrayTree(ts);
      case Map(m) =>
        var es := EntriesOf(m, levels - 1);
        FitsMap(es, levels);
        t := MapTree(es);
    }
  }

  lemma {:induction false} TreesOf(xs: seq<Value>, levels: nat) returns (ts: seq<Tree>)
    requires forall x <- xs :: Supported(x, levels)
    ensures DenoteItems(ts) == xs && |ts| == |xs| && forall t <- ts :: Heads(t) && Fits(t, levels)
    decreases levels, 1, |xs|
  {
    hide Supported, Fits, Heads, Denote;
    if xs == [] {
      ts := [];
    } else {
      assert xs[0] in xs;
      var t := TreeOf(xs[0], levels);
      var rest := TreesOf(xs[1..], levels);
      ts := [t] + rest;
    }
  }

  lemma {:induction false} EntriesOf(m: map<Key, Value>, levels: nat) returns (es: seq<Entry>)
    requires forall k <- m :: Supported(KeyValue(k), levels) && Supported(m[k], levels)
    ensures DenoteEntries(es, map[]) == m && |es| == |m|
    ensures forall e <- es :: KeyHeads(e.key) && Heads(e.value) && Fits(KeyTree(e.key), levels) && Fits(e.value, levels)
    decreases levels, 1, |m|
  {
    hide Fits, Heads, Denote;
    if |m| == 0 {
      es := [];
    } else {
      var k :| k in m;
      var less := m - {k};
      var rest := EntriesOf(less, levels);
      var t := TreeOf(m[k], levels);
      es := rest + [Entry(k, t)];
      DenoteLast(rest, Entry(k, t), map[]);
      assert m == less[k := m[k]];
      FitsLeaf(KeyTree(k), levels);
    }
  }

  lemma {:induction false} DenoteLast(es: seq<Entry>, e: Entry, m: map<Key, Value>)
    ensures DenoteEntries(es + [e], m) == DenoteEntries(es, m)[e.key := DenoteEntry(e)]
  {
    if es == [] {
      assert es + [e] == [e];
    } else {
      assert (es + [e])[1..] == es[1..] + [e];
      DenoteLast(es[1..], e, m[es[0].key := DenoteEntry(es[0])]);
    }
  }

  /** The values some input decodes to are exactly the supported ones nested at most 16 deep. */
  lemma DecodableIffSupported(v: Value)
    ensures (exists b, rest :: Decode(b) == Ok(Decoded(v, rest))) <==> Supported(v, 16)
  {
    hide Item, Supported;
    forall b, rest | Decode(b) == Ok(Decoded(v, rest))
      ensures Supported(v, MAX_DEPTH)
    {
      DecodedIsSupported(b, 0);
    }
    if Supported(v, MAX_DEPTH) {
      var t := TreeOf(v, MAX_DEPTH);
      RoundTrip(t, [], 0);
      assert Decode(Encode(t) + []) == Ok(Decoded(v, []));
    }
  }
}
