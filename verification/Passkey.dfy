// Passkey registration and login over CBOR (internal/webauthn/webauthn.go):
// the credential key is the slice of bytes the decoder consumed, and login
// decodes that slice again.
module Passkey {
  import opened Prelude
  import opened Cbor
  import E = CborEncoding

  const ES256 := -7
  const EDDSA := -8
  const RS256 := -257

  datatype AuthData = AuthData(rpIDHash: seq<Byte>, flags: Byte, signCount: nat, credID: seq<Byte>, coseKey: seq<Byte>)

  datatype PublicKey =
    | Ecdsa(x: seq<Byte>, y: seq<Byte>)
    | Ed25519(point: seq<Byte>)
    | Rsa(modulus: seq<Byte>, exponent: nat)

  datatype Unverified = Unverified

  /** The attested-credential flag. */
  predicate Attested(flags: Byte) {
    (flags / 0x40) % 2 == 1
  }

  /** parseAuthData. */
  function ParseAuthData(b: seq<Byte>, wantCred: bool): Result<AuthData, Unverified> {
    if |b| < 37 then Err(Unverified)
    else
      var a := AuthData(b[..32], b[32], BigEndian(b[33..37]), [], []);
      if !wantCred then Ok(a)
      else if !Attested(a.flags) || |b| < 55 then Err(Unverified)
      else
        var n := BigEndian(b[53..55]);
        var rest := b[55..];
        if n == 0 || n > 1023 || |rest| < n then Err(Unverified)
        else
          var key := Decode(rest[n..]);
          if key.Err? then Err(Unverified)
          else
            Ok(a.(credID := rest[..n], coseKey := rest[n..|rest| - |key.value.rest|]))
  }

  /** Two bytes of the data as a number, the first the higher. */
  function Two(b: seq<Byte>, i: nat): nat
    requires i + 2 <= |b|
  {
    256 * (b[i] as nat) + (b[i + 1] as nat)
  }

  /**
   * What the fixed part of the data says: the counter is big-endian, a credential is there only with
   * bit 6 of the flags and 55 bytes, and its id has 1 to 1023 bytes.
   */
  lemma ParseSays(b: seq<Byte>, wantCred: bool)
    ensures var r := ParseAuthData(b, wantCred);
            && (|b| < 37 ==> r == Err(Unverified))
            && (|b| >= 37 && !wantCred ==>
                  r == Ok(AuthData(b[..32], b[32], 0x1_0000 * Two(b, 33) + Two(b, 35), [], [])))
            && (wantCred ==>
                  (r.Ok? <==>
                   && |b| >= 55
                   && b[32] % 128 >= 64
                   && 1 <= Two(b, 53) <= 1023
                   && |b| >= 55 + Two(b, 53)
                   && Decode(b[55 + Two(b, 53)..]).Ok?))
            && (wantCred && r.Ok? ==>
                  && r.value.rpIDHash == b[..32]
                  && r.value.flags == b[32]
                  && r.value.signCount == 0x1_0000 * Two(b, 33) + Two(b, 35)
                  && r.value.credID == b[55..55 + Two(b, 53)])
  {
    hide Item;
    if |b| >= 37 {
      TwoBytes(b[33..37], 2);
      TwoBytes(b[33..37][..2], 0);
    }
    if |b| >= 55 {
      TwoBytes(b[53..55], 0);
      var n := Two(b, 53);
      if |b| >= 55 + n {
        assert b[55..][n..] == b[55 + n..] && b[55..][..n] == b[55..55 + n];
      }
    }
  }

  lemma TwoBytes(s: seq<Byte>, i: nat)
    requires |s| == i + 2
    ensures BigEndian(s) == 0x1_0000 * BigEndian(s[..i]) + Two(s, i)
  {
    assert s[..i + 1][..i] == s[..i];
  }

  function IntAt(m: map<Key, Value>, k: int): int {
    if IntKey(k) in m && m[IntKey(k)].Int? then m[IntKey(k)].n else 0
  }

  function BytesAt(m: map<Key, Value>, k: int): seq<Byte> {
    if IntKey(k) in m && m[IntKey(k)].Bytes? then m[IntKey(k)].bytes else []
  }

  /** coseKey, with the curve check as a parameter. */
  function CoseKey(raw: seq<Byte>, onCurve: (seq<Byte>, seq<Byte>) -> bool): Result<(int, PublicKey), Unverified> {
    var v := Decode(raw);
    if v.Err? || !v.value.value.Map? then Err(Unverified)
    else
      var m := v.value.value.entries;
      var kty, alg := IntAt(m, 1), IntAt(m, 3);
      if kty == 2 && alg == ES256 then
        var x, y := BytesAt(m, -2), BytesAt(m, -3);
        if IntAt(m, -1) != 1 || |x| != 32 || |y| != 32 || !onCurve(x, y) then Err(Unverified)
        else Ok((ES256, Ecdsa(x, y)))
      else if kty == 1 && alg == EDDSA then
        var x := BytesAt(m, -2);
        if IntAt(m, -1) != 6 || |x| != 32 then Err(Unverified) else Ok((EDDSA, Ed25519(x)))
      else if kty == 3 && alg == RS256 then
        var n, e := BytesAt(m, -1), BytesAt(m, -2);
        if |n| < 256 || |e| == 0 || |e| > 4 then Err(Unverified) else Ok((RS256, Rsa(n, BigEndian(e))))
      else Err(Unverified)
  }

  /**
   * The bytes kept at registration decode, alone or followed by anything, to what registration decoded
   * in place: so login sees the same key.
   */
  lemma StoredKeyDecodesAlike(b: seq<Byte>, tail: seq<Byte>, onCurve: (seq<Byte>, seq<Byte>) -> bool)
    requires ParseAuthData(b, true).Ok?
    ensures var a := ParseAuthData(b, true).value;
            && |b| >= 55 + |a.credID|
            && var inPlace := b[55 + |a.credID|..];
            && a.coseKey <= inPlace
            && Decode(inPlace).Ok?
            && Decode(a.coseKey) == Ok(Decoded(Decode(inPlace).value.value, []))
            && CoseKey(a.coseKey, onCurve) == CoseKey(inPlace, onCurve)
            && CoseKey(a.coseKey + tail, onCurve) == CoseKey(inPlace, onCurve)
  {
    hide Item, BigEndian;
    var a := ParseAuthData(b, true).value;
    var rest := b[55..];
    var n := |a.credID|;
    assert rest[n..] == b[55 + n..];
    var r := Decode(rest[n..]).value;
    DecodeIgnoresTail(rest[n..], tail);
    assert a.coseKey == rest[n..][..|rest[n..]| - |r.rest|];
    assert a.coseKey + [] == a.coseKey;
  }

  lemma ParsedAs(b: seq<Byte>, rest: seq<Byte>, n: nat, v: Value, ext: seq<Byte>)
    requires |b| >= 55 && rest == b[55..] && Attested(b[32])
    requires n == BigEndian(b[53..55]) && 1 <= n <= 1023 && n <= |rest|
    requires Decode(rest[n..]) == Ok(Decoded(v, ext)) && |ext| <= |rest| - n
    ensures ParseAuthData(b, true) ==
            Ok(AuthData(b[..32], b[32], BigEndian(b[33..37]), rest[..n], rest[n..|rest| - |ext|]))
  {
    hide Decode, BigEndian, Attested;
  }

  /** Extension data after the key changes nothing that is parsed. */
  lemma ExtensionsIgnored(b: seq<Byte>, ext: seq<Byte>)
    requires ParseAuthData(b, true).Ok?
    ensures var a := ParseAuthData(b, true).value;
            && |b| >= 55 + |a.credID| + |a.coseKey|
            && ParseAuthData(b[..55 + |a.credID| + |a.coseKey|] + ext, true) == Ok(a)
  {
    hide Item, BigEndian;
    var a := ParseAuthData(b, true).value;
    var rest := b[55..];
    var n := |a.credID|;
    var r := Decode(rest[n..]).value;
    DecodeIgnoresTail(rest[n..], ext);
    var m := 55 + n + |a.coseKey|;
    var c := b[..m] + ext;
    assert c[..32] == b[..32] && c[33..37] == b[33..37] && c[53..55] == b[53..55];
    assert a.coseKey == rest[n..][..|rest[n..]| - |r.rest|];
    var crest := c[55..];
    assert crest[..n] == rest[..n];
    assert crest[n..] == a.coseKey + ext;
    assert crest[n..|crest| - |ext|] == a.coseKey;
    ParsedAs(c, crest, n, r.value, ext);
  }

  /** The first 55 bytes: the hash, the flags, the counter, the AAGUID and the length of the id. */
  function Front(rpIDHash: seq<Byte>, flags: Byte, count: seq<Byte>, aaguid: seq<Byte>,
                 idLength: seq<Byte>): seq<Byte> {
    rpIDHash + [flags] + count + (aaguid + idLength)
  }

  lemma FrontParts(rpIDHash: seq<Byte>, flags: Byte, count: seq<Byte>, aaguid: seq<Byte>, idLength: seq<Byte>,
                   tail: seq<Byte>)
    requires |rpIDHash| == 32 && |count| == 4 && |aaguid| == 16 && |idLength| == 2
    ensures var b := Front(rpIDHash, flags, count, aaguid, idLength) + tail;
            |b| == 55 + |tail| && b[..32] == rpIDHash && b[32] == flags && b[33..37] == count
            && b[53..55] == idLength && b[55..] == tail
  {
    var head := rpIDHash + [flags] + count;
    var late := aaguid + idLength;
    var b := Front(rpIDHash, flags, count, aaguid, idLength) + tail;
    assert b == head + (late + tail);
    assert b[..32] == rpIDHash && b[33..37] == count;
    assert late[16..18] == idLength;
    assert b[53..55] == late[16..18];
  }

  /** Authenticator data put together from its parts, extensions last, is parsed back into them. */
  lemma ParseInvertsAssembly(rpIDHash: seq<Byte>, flags: Byte, count: nat, aaguid: seq<Byte>, id: seq<Byte>,
                             key: E.Tree, ext: seq<Byte>)
    requires |rpIDHash| == 32 && Attested(flags) && count < 0x1_0000_0000 && |aaguid| == 16 && 1 <= |id| <= 1023
    requires E.Heads(key) && E.Fits(key, MAX_DEPTH)
    ensures ParseAuthData(
              Front(rpIDHash, flags, E.BigEndianOf(count, 4), aaguid,
                    E.BigEndianOf(|id|, 2)) + (id + (E.Encode(key) + ext)), true) ==
            Ok(AuthData(rpIDHash, flags, count, id, E.Encode(key)))
  {
    hide ParseAuthData, Front, Item, BigEndian, Attested, E.Denote, E.BigEndianOf, E.Encode, E.Fits, E.Heads,
         E.Bytes256;
    E.Widths();
    E.BigEndianRoundTrip(count, 4);
    E.BigEndianRoundTrip(|id|, 2);
    E.RoundTrip(key, ext, 0);
    var rest := id + (E.Encode(key) + ext);
    FrontParts(rpIDHash, flags, E.BigEndianOf(count, 4), aaguid, E.BigEndianOf(|id|, 2), rest);
    assert rest[..|id|] == id;
    assert rest[|id|..] == E.Encode(key) + ext;
    assert rest[|id|..|rest| - |ext|] == E.Encode(key);
    var b := Front(rpIDHash, flags, E.BigEndianOf(count, 4), aaguid, E.BigEndianOf(|id|, 2)) + rest;
    ParsedAs(b, rest, |id|, E.Denote(key), ext);
  }

  /** The bytes start with a map that has at least these entries. */
  ghost predicate MapWith(raw: seq<Byte>, entries: map<Key, Value>) {
    && Decode(raw).Ok?
    && Decode(raw).value.value.Map?
    && forall k <- entries ::
         k in Decode(raw).value.value.entries && Decode(raw).value.value.entries[k] == entries[k]
  }

  /** A key is accepted exactly when it has every entry of one of the three kinds; other entries do not matter. */
  lemma AcceptedKeys(raw: seq<Byte>, onCurve: (seq<Byte>, seq<Byte>) -> bool, alg: int, key: PublicKey)
    ensures CoseKey(raw, onCurve) == Ok((alg, key)) <==>
            match key
            case Ecdsa(x, y) =>
              && alg == -7 && |x| == 32 && |y| == 32 && onCurve(x, y)
              && MapWith(raw, map[IntKey(1) := Int(2), IntKey(3) := Int(-7), IntKey(-1) := Int(1),
                                  IntKey(-2) := Bytes(x), IntKey(-3) := Bytes(y)])
            case Ed25519(x) =>
              && alg == -8 && |x| == 32
              && MapWith(raw, map[IntKey(1) := Int(1), IntKey(3) := Int(-8), IntKey(-1) := Int(6),
                                  IntKey(-2) := Bytes(x)])
            case Rsa(n, e) =>
              && alg == -257 && 256 <= |n|
              && exists exp: seq<Byte> ::
                   && 1 <= |exp| <= 4 && e == BigEndian(exp)
                   && MapWith(raw, map[IntKey(1) := Int(3), IntKey(3) := Int(-257), IntKey(-1) := Bytes(n),
                                       IntKey(-2) := Bytes(exp)])
  {
    hide Decode, BigEndian;
    if key.Rsa? && CoseKey(raw, onCurve) == Ok((alg, key)) {
      var exp := BytesAt(Decode(raw).value.value.entries, -2);
      assert MapWith(raw, map[IntKey(1) := Int(3), IntKey(3) := Int(-257), IntKey(-1) := Bytes(key.modulus),
                              IntKey(-2) := Bytes(exp)]);
    }
  }

  // ---- Keys read back ---------------------------------------------------------

  /** A COSE_Key map with integer labels, as authenticators write it. */
  function KeyTree(kty: int, alg: int, rest: seq<E.Entry>): E.Tree {
    E.MapTree([E.Entry(IntKey(1), E.IntTree(kty)), E.Entry(IntKey(3), E.IntTree(alg))] + rest)
  }

  lemma {:induction false} DenotedStep(es: seq<E.Entry>, m: map<Key, Value>)
    requires es != []
    ensures E.DenoteEntries(es, m) == E.DenoteEntries(es[1..], m[es[0].key := E.DenoteEntry(es[0])])
  {
  }

  /** A key tree within the decoder's limits decodes to its entries. */
  lemma KeyDecodes(t: E.Tree, ext: seq<Byte>)
    requires E.Heads(t) && E.Fits(t, MAX_DEPTH) && t.MapTree?
    ensures Decode(E.Encode(t) + ext) == Ok(Decoded(Map(E.DenoteEntries(t.entries, map[])), ext))
  {
    hide E.Encode, Item, E.Fits, E.Heads, E.DenoteEntries;
    E.RoundTrip(t, ext, 0);
  }

  /**
   * A P-256 key written by its coordinates is read back as them exactly when they are 32 bytes each
   * and on the curve.
   */
  lemma EcKeyReadBack(x: seq<Byte>, y: seq<Byte>, ext: seq<Byte>, onCurve: (seq<Byte>, seq<Byte>) -> bool)
    requires |x| < E.TWO_64 && |y| < E.TWO_64
    ensures var t := KeyTree(2, ES256,
                             [E.Entry(IntKey(-1), E.IntTree(1)), E.Entry(IntKey(-2), E.BytesTree(x)),
                              E.Entry(IntKey(-3), E.BytesTree(y))]);
            CoseKey(E.Encode(t) + ext, onCurve) ==
            if |x| == 32 && |y| == 32 && onCurve(x, y) then Ok((ES256, Ecdsa(x, y))) else Err(Unverified)
  {
    var rest := [E.Entry(IntKey(-1), E.IntTree(1)), E.Entry(IntKey(-2), E.BytesTree(x)),
                 E.Entry(IntKey(-3), E.BytesTree(y))];
    var t := KeyTree(2, ES256, rest);
    ScalarsFit(t);
    KeyDecodes(t, ext);
    hide E.Encode, Decode, CoseKey, E.DenoteEntries;
    FiveEntries(t.entries, EcEntries(x, y));
    EcKeyOf(E.Encode(t) + ext, x, y, ext, onCurve);
  }

  function EcEntries(x: seq<Byte>, y: seq<Byte>): map<Key, Value> {
    map[IntKey(1) := Int(2), IntKey(3) := Int(ES256), IntKey(-1) := Int(1), IntKey(-2) := Bytes(x),
        IntKey(-3) := Bytes(y)]
  }

  lemma EcKeyOf(raw: seq<Byte>, x: seq<Byte>, y: seq<Byte>, ext: seq<Byte>, onCurve: (seq<Byte>, seq<Byte>) -> bool)
    requires Decode(raw) == Ok(Decoded(Map(EcEntries(x, y)), ext))
    ensures CoseKey(raw, onCurve) ==
            if |x| == 32 && |y| == 32 && onCurve(x, y) then Ok((ES256, Ecdsa(x, y))) else Err(Unverified)
  {
    hide Decode;
  }

  /** An Ed25519 key written by its point is read back as it exactly when the point is 32 bytes. */
  lemma EdKeyReadBack(x: seq<Byte>, ext: seq<Byte>, onCurve: (seq<Byte>, seq<Byte>) -> bool)
    requires |x| < E.TWO_64
    ensures var t := KeyTree(1, EDDSA, [E.Entry(IntKey(-1), E.IntTree(6)), E.Entry(IntKey(-2), E.BytesTree(x))]);
            CoseKey(E.Encode(t) + ext, onCurve) == if |x| == 32 then Ok((EDDSA, Ed25519(x))) else Err(Unverified)
  {
    var rest := [E.Entry(IntKey(-1), E.IntTree(6)), E.Entry(IntKey(-2), E.BytesTree(x))];
    var t := KeyTree(1, EDDSA, rest);
    ScalarsFit(t);
    KeyDecodes(t, ext);
    hide E.Encode, Decode, CoseKey, E.DenoteEntries;
    FourEntries(t.entries, EdEntries(x));
    EdKeyOf(E.Encode(t) + ext, x, ext, onCurve);
  }

  function EdEntries(x: seq<Byte>): map<Key, Value> {
    map[IntKey(1) := Int(1), IntKey(3) := Int(EDDSA), IntKey(-1) := Int(6), IntKey(-2) := Bytes(x)]
  }

  lemma EdKeyOf(raw: seq<Byte>, x: seq<Byte>, ext: seq<Byte>, onCurve: (seq<Byte>, seq<Byte>) -> bool)
    requires Decode(raw) == Ok(Decoded(Map(EdEntries(x)), ext))
    ensures CoseKey(raw, onCurve) == if |x| == 32 then Ok((EDDSA, Ed25519(x))) else Err(Unverified)
  {
    hide Decode;
  }

  /**
   * An RSA key written by its modulus and exponent is read back as them exactly when the modulus has
   * 256 bytes or more and the exponent one to four.
   */
  lemma RsaKeyReadBack(n: seq<Byte>, e: seq<Byte>, ext: seq<Byte>, onCurve: (seq<Byte>, seq<Byte>) -> bool)
    requires |n| < E.TWO_64 && |e| < E.TWO_64
    ensures var t := KeyTree(3, RS256, RsaRest(n, e));
            CoseKey(E.Encode(t) + ext, onCurve) ==
            if 256 <= |n| && 1 <= |e| <= 4 then Ok((RS256, Rsa(n, BigEndian(e)))) else Err(Unverified)
  {
    hide E.Encode, Decode, CoseKey, E.DenoteEntries, Item, E.Fits, E.Heads, E.DenoteEntry, BigEndian;
    var t := KeyTree(3, RS256, RsaRest(n, e));
    RsaFits(n, e);
    KeyDecodes(t, ext);
    RsaDenotes(n, e);
    hide KeyTree, RsaEntries, RsaRest;
    RsaKeyOf(E.Encode(t) + ext, n, e, ext, onCurve);
  }

  function RsaRest(n: seq<Byte>, e: seq<Byte>): seq<E.Entry> {
    [E.Entry(IntKey(-1), E.BytesTree(n)), E.Entry(IntKey(-2), E.BytesTree(e))]
  }

  lemma RsaFits(n: seq<Byte>, e: seq<Byte>)
    requires |n| < E.TWO_64 && |e| < E.TWO_64
    ensures var t := KeyTree(3, RS256, RsaRest(n, e)); E.Heads(t) && E.Fits(t, MAX_DEPTH)
  {
    hide E.Fits, E.Heads;
    ScalarsFit(KeyTree(3, RS256, RsaRest(n, e)));
  }

  lemma RsaDenotes(n: seq<Byte>, e: seq<Byte>)
    ensures E.DenoteEntries(KeyTree(3, RS256, RsaRest(n, e)).entries, map[]) == RsaEntries(n, e)
  {
    hide E.DenoteEntries;
    FourEntries(KeyTree(3, RS256, RsaRest(n, e)).entries, RsaEntries(n, e));
  }

  function RsaEntries(n: seq<Byte>, e: seq<Byte>): map<Key, Value> {
    map[IntKey(1) := Int(3), IntKey(3) := Int(RS256), IntKey(-1) := Bytes(n), IntKey(-2) := Bytes(e)]
  }

  lemma RsaKeyOf(raw: seq<Byte>, n: seq<Byte>, e: seq<Byte>, ext: seq<Byte>, onCurve: (seq<Byte>, seq<Byte>) -> bool)
    requires Decode(raw) == Ok(Decoded(Map(RsaEntries(n, e)), ext))
    ensures CoseKey(raw, onCurve) ==
            if 256 <= |n| && 1 <= |e| <= 4 then Ok((RS256, Rsa(n, BigEndian(e)))) else Err(Unverified)
  {
    hide Decode, BigEndian;
  }

  lemma FourEntries(es: seq<E.Entry>, m: map<Key, Value>)
    requires |es| == 4
    requires m == map[es[0].key := E.DenoteEntry(es[0]), es[1].key := E.DenoteEntry(es[1]),
                      es[2].key := E.DenoteEntry(es[2]),
                      es[3].key := E.DenoteEntry(es[3])]
    ensures E.DenoteEntries(es, map[]) == m
  {
    hide E.DenoteEntry;
    var m1 := map[es[0].key := E.DenoteEntry(es[0])];
    var m2 := m1[es[1].key := E.DenoteEntry(es[1])];
    var m3 := m2[es[2].key := E.DenoteEntry(es[2])];
    DenotedStep(es, map[]);
    DenotedStep(es[1..], m1);
    DenotedStep(es[1..][1..], m2);
    DenotedStep(es[1..][1..][1..], m3);
  }

  lemma FiveEntries(es: seq<E.Entry>, m: map<Key, Value>)
    requires |es| == 5
    requires m == map[es[0].key := E.DenoteEntry(es[0]), es[1].key := E.DenoteEntry(es[1]),
                      es[2].key := E.DenoteEntry(es[2]),
                      es[3].key := E.DenoteEntry(es[3]), es[4].key := E.DenoteEntry(es[4])]
    ensures E.DenoteEntries(es, map[]) == m
  {
    hide E.DenoteEntry;
    var m1 := map[es[0].key := E.DenoteEntry(es[0])];
    var m2 := m1[es[1].key := E.DenoteEntry(es[1])];
    var m3 := m2[es[2].key := E.DenoteEntry(es[2])];
    var m4 := m3[es[3].key := E.DenoteEntry(es[3])];
    DenotedStep(es, map[]);
    DenotedStep(es[1..], m1);
    DenotedStep(es[1..][1..], m2);
    DenotedStep(es[1..][1..][1..], m3);
    DenotedStep(es[1..][1..][1..][1..], m4);
  }

  /** A map of integers and byte strings under small labels fits. */
  lemma ScalarsFit(t: E.Tree)
    requires t.MapTree? && |t.entries| < E.TWO_64
    requires forall e <- t.entries :: e.key.IntKey? && E.IsInt64(e.key.n)
    requires forall e <- t.entries ::
               (e.value.IntTree? && E.IsInt64(e.value.n)) || (e.value.BytesTree? && |e.value.bytes| < E.TWO_64)
    ensures E.Heads(t) && E.Fits(t, MAX_DEPTH)
  {
  }
}
