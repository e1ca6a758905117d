/** The library code the requests call: protobuf codecs, AES-CBC, HMAC, SHA-2, HKDF and P-256.
    Each is an arbitrary function; `Lawful` lists the only laws the proofs use. */
module Libraries {
  import opened Wrappers
  import opened Messages
  import opened PointCodec

  datatype Library = Library(
    encUkey: Ukey2Message -> Bytes, decUkey: Bytes -> Option<Ukey2Message>,
    encOffline: OfflineFrame -> Bytes, decOffline: Bytes -> Option<OfflineFrame>,
    encShare: ShareFrame -> Bytes, decShare: Bytes -> Option<ShareFrame>,
    encD2d: DeviceToDevice -> Bytes, decD2d: Bytes -> Option<DeviceToDevice>,
    encHb: HeaderAndBody -> Bytes, decHb: Bytes -> Option<HeaderAndBody>,
    encSm: SecureMessage -> Bytes, decSm: Bytes -> Option<SecureMessage>,
    utf8: Bytes -> bool,
    cbcEncrypt: (Bytes, Bytes, Bytes) -> Bytes,   // key, iv, whole blocks
    cbcDecrypt: (Bytes, Bytes, Bytes) -> Bytes,
    mac: (Bytes, Bytes) -> Bytes,                 // key, data
    sha256: Bytes -> Bytes,
    sha512: Bytes -> Bytes,
    hkdf: (Bytes, Bytes, Bytes) -> Bytes,         // salt, input, info
    publicKey: nat -> Point,
    onCurve: Point -> bool,
    dh: (nat, Point) -> Bytes)

  /** Decoding inverts encoding. */
  ghost predicate LawfulCodecs(l: Library) {
    && (forall m :: l.decUkey(l.encUkey(m)) == Some(m))
    && (forall m :: l.decOffline(l.encOffline(m)) == Some(m))
    && (forall m :: l.decShare(l.encShare(m)) == Some(m))
    && (forall m :: l.decD2d(l.encD2d(m)) == Some(m))
    && (forall m :: l.decHb(l.encHb(m)) == Some(m))
    && (forall m :: l.decSm(l.encSm(m)) == Some(m))
  }

  /** CBC keeps the length of whole blocks, and decryption inverts encryption. */
  ghost predicate LawfulCipher(l: Library) {
    forall key, iv, x ::
      |x| % 16 == 0 ==> |l.cbcEncrypt(key, iv, x)| == |x| && l.cbcDecrypt(key, iv, l.cbcEncrypt(key, iv, x)) == x
  }

  /** Public keys are points of the curve and Diffie-Hellman commutes. */
  ghost predicate LawfulCurve(l: Library) {
    && (forall a :: l.publicKey(a).WellFormed() && l.onCurve(l.publicKey(a)))
    && (forall a, b :: l.dh(a, l.publicKey(b)) == l.dh(b, l.publicKey(a)))
  }

  ghost predicate Lawful(l: Library) {
    LawfulCodecs(l) && LawfulCipher(l) && LawfulCurve(l)
  }

  // --- PKCS#7 padding (section 6.3 of RFC 5652) ----------------------------------------------

  function PadLength(n: nat): (p: byte)
    ensures 1 <= p <= 16 && (n + p) % 16 == 0
  {
    16 - n % 16
  }

  function Fill(k: nat, v: byte): (b: Bytes)
    ensures |b| == k && forall i | 0 <= i < k :: b[i] == v
  {
    seq(k, _ => v)
  }

  function Pad(x: Bytes): (b: Bytes)
    ensures |b| % 16 == 0
  {
    x + Fill(PadLength(|x|), PadLength(|x|))
  }

  function Unpad(b: Bytes): Option<Bytes> {
    if |b| == 0 || |b| % 16 != 0 then None
    else
      var n: nat := b[|b| - 1];
      if n < 1 || n > 16 || b[|b| - n..] != Fill(n, b[|b| - 1]) then None
      else Some(b[..|b| - n])
  }

  lemma UnpadPad(x: Bytes)
    ensures Unpad(Pad(x)) == Some(x) && |x| < |Pad(x)| <= |x| + 16
  {
    var n := PadLength(|x|);
    var b := Pad(x);
    assert b[|b| - n..] == Fill(n, n);
    assert b[..|b| - n] == x;
  }

  /** Only a padded text can be unpadded, to the text it is the padding of. */
  lemma UnpadExactly(b: Bytes, x: Bytes)
    ensures Unpad(b) == Some(x) <==> b == Pad(x)
  {
    UnpadPad(x);
    if Unpad(b) == Some(x) {
      var last := b[|b| - 1];
      assert b == b[..|b| - last] + b[|b| - last..];
      assert |x| + last == |b| && PadLength(|x|) == last;
    }
  }

  // --- Session keys --------------------------------------------------------------------------

  datatype SessionKeys = SessionKeys(encrypt: Bytes, decrypt: Bytes, sendMac: Bytes, recvMac: Bytes)

  // Everything `finalize_key_exchange` derives before it picks the keys of its own side.
  datatype KeySchedule = KeySchedule(
    auth: Bytes, clientKey: Bytes, clientMac: Bytes, serverKey: Bytes, serverMac: Bytes)

  // ASCII labels and the two fixed salts, as bytes.
  function Ascii(s: string): Bytes
    requires forall i | 0 <= i < |s| :: s[i] < 128 as char
  {
    seq(|s|, i requires 0 <= i < |s| => s[i] as int)
  }

  const D2D_SALT: Bytes := [
    0x82, 0xAA, 0x55, 0xA0, 0xD3, 0x97, 0xF8, 0x83, 0x46, 0xCA, 0x1C, 0xEE, 0x8D, 0x39, 0x09, 0xB9,
    0x5F, 0x13, 0xFA, 0x7D, 0xEB, 0x1D, 0x4A, 0xB3, 0x83, 0x76, 0xB8, 0x25, 0x6D, 0xA8, 0x55, 0x10]

  const KEY_SALT: Bytes := [
    0xBF, 0x9D, 0x2A, 0x53, 0xC6, 0x36, 0x16, 0xD7, 0x5D, 0xB0, 0xA7, 0x16, 0x5B, 0x91, 0xC1, 0xEF,
    0x73, 0xE5, 0x37, 0xF2, 0x42, 0x74, 0x05, 0xFA, 0x23, 0x61, 0x0A, 0x4B, 0xE6, 0x57, 0x64, 0x2E]

  /** The HKDF ladder over the shared secret and the handshake transcript. */
  function Schedule(l: Library, secret: Bytes, clientInit: Bytes, serverInit: Bytes): KeySchedule {
    var derived := l.sha256(secret);
    var info := clientInit + serverInit;
    var auth := l.hkdf(Ascii("UKEY2 v1 auth"), derived, info);
    var next := l.hkdf(Ascii("UKEY2 v1 next"), derived, info);
    var client := l.hkdf(D2D_SALT, next, Ascii("client"));
    var server := l.hkdf(D2D_SALT, next, Ascii("server"));
    KeySchedule(
      auth,
      l.hkdf(KEY_SALT, client, Ascii("ENC:2")),
      l.hkdf(KEY_SALT, client, Ascii("SIG:1")),
      l.hkdf(KEY_SALT, server, Ascii("ENC:2")),
      l.hkdf(KEY_SALT, server, Ascii("SIG:1")))
  }

  /** A key derivation in which no two inputs meet. */
  ghost predicate Separating(l: Library) {
    forall salt, key, info, salt2, key2, info2 ::
      l.hkdf(salt, key, info) == l.hkdf(salt2, key2, info2) ==> salt == salt2 && key == key2 && info == info2
  }

  /** The two directions and the two purposes have different keys, none of which is the string the PIN is made of. */
  lemma KeysSeparate(l: Library, secret: Bytes, clientInit: Bytes, serverInit: Bytes)
    requires Separating(l)
    ensures var s := Schedule(l, secret, clientInit, serverInit);
            && s.clientKey != s.serverKey && s.clientMac != s.serverMac
            && s.auth !in {s.clientKey, s.clientMac, s.serverKey, s.serverMac}
            && {s.clientKey, s.serverKey} !! {s.clientMac, s.serverMac}
  {
    LabelsDiffer();
  }

  lemma LabelsDiffer()
    ensures Ascii("client") != Ascii("server") && Ascii("ENC:2") != Ascii("SIG:1")
    ensures Ascii("UKEY2 v1 auth") != KEY_SALT
  {
    assert Ascii("client")[0] != Ascii("server")[0];
    assert Ascii("ENC:2")[0] != Ascii("SIG:1")[0];
    assert |Ascii("UKEY2 v1 auth")| != |KEY_SALT|;
  }

  /** Two sides agree on the string the PIN is made of, or on any one key, exactly when they agree on the digest of the
      secret and have seen the same two init messages. */
  lemma ScheduleBinds(
    l: Library, secret: Bytes, clientInit: Bytes, serverInit: Bytes,
    secret2: Bytes, clientInit2: Bytes, serverInit2: Bytes)
    requires Separating(l)
    ensures var s, t := Schedule(l, secret, clientInit, serverInit), Schedule(l, secret2, clientInit2, serverInit2);
            var same := l.sha256(secret) == l.sha256(secret2) && clientInit + serverInit == clientInit2 + serverInit2;
            && (s.auth == t.auth <==> same)
            && (s.clientKey == t.clientKey <==> same) && (s.serverKey == t.serverKey <==> same)
            && (s.clientMac == t.clientMac <==> same) && (s.serverMac == t.serverMac <==> same)
  {
  }
}
