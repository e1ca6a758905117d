/** The secure channel both requests run: sealing and opening one message, and the length-prefixed frames
    underneath. */
module SecureChannel {
  import opened Wrappers
  import opened Messages
  import opened Libraries

  /** The SecureMessage that `encrypt_and_send` must emit for a frame. */
  function Seal(l: Library, keys: SessionKeys, iv: Bytes, sequence: int, frame: OfflineFrame): Bytes {
    var plain := l.encD2d(DeviceToDevice(sequence, l.encOffline(frame)));
    var hb := l.encHb(HeaderAndBody(iv, l.cbcEncrypt(keys.encrypt, iv, Pad(plain))));
    l.encSm(SecureMessage(hb, l.mac(keys.sendMac, hb)))
  }

  datatype Opened = Message(d2d: DeviceToDevice) | Refusal(reason: Reason)

  /** `decrypt_and_process_secure_message` up to the order check. */
  function Open(l: Library, keys: SessionKeys, wire: Bytes): Opened {
    match l.decSm(wire)
    case None => Refusal(Undecodable)
    case Some(sm) =>
      if l.mac(keys.recvMac, sm.headerAndBody) != sm.signature then Refusal(BadSignature)
      else
        match l.decHb(sm.headerAndBody)
        case None => Refusal(Undecodable)
        case Some(hb) =>
          if |hb.iv| != 16 then Refusal(BadIv)
          else
            match Unpad(l.cbcDecrypt(keys.decrypt, hb.iv, hb.body))
            case None => Refusal(BadPadding)
            case Some(plain) =>
              match l.decD2d(plain)
              case None => Refusal(Undecodable)
              case Some(d2d) => Message(d2d)
  }

  /** The signature on a message is the MAC of its header and body under this key. */
  ghost predicate Signed(l: Library, key: Bytes, wire: Bytes) {
    exists sm :: l.decSm(wire) == Some(sm) && sm.signature == l.mac(key, sm.headerAndBody)
  }

  /** The message is signed, and its body decrypts under its 16-byte vector to the padded encoding of this content. */
  ghost predicate Carries(l: Library, keys: SessionKeys, wire: Bytes, d2d: DeviceToDevice) {
    Signed(l, keys.recvMac, wire)
    && exists hb, plain ::
         && l.decHb(l.decSm(wire).value.headerAndBody) == Some(hb) && |hb.iv| == 16
         && l.cbcDecrypt(keys.decrypt, hb.iv, hb.body) == Pad(plain) && l.decD2d(plain) == Some(d2d)
  }

  lemma DecryptedExactly(l: Library, keys: SessionKeys, hb: HeaderAndBody, plain: Bytes)
    ensures Unpad(l.cbcDecrypt(keys.decrypt, hb.iv, hb.body)) == Some(plain)
       <==> l.cbcDecrypt(keys.decrypt, hb.iv, hb.body) == Pad(plain)
  {
    UnpadExactly(l.cbcDecrypt(keys.decrypt, hb.iv, hb.body), plain);
  }

  /** Exactly such a message opens. */
  lemma OpenExactly(l: Library, keys: SessionKeys, wire: Bytes, d2d: DeviceToDevice)
    ensures Open(l, keys, wire) == Message(d2d) <==> Carries(l, keys, wire, d2d)
  {
    if l.decSm(wire).Some? && l.decHb(l.decSm(wire).value.headerAndBody).Some? {
      var hb := l.decHb(l.decSm(wire).value.headerAndBody).value;
      var padded := l.cbcDecrypt(keys.decrypt, hb.iv, hb.body);
      if Unpad(padded).Some? {
        DecryptedExactly(l, keys, hb, Unpad(padded).value);
      }
      if Carries(l, keys, wire, d2d) {
        var plain :| padded == Pad(plain) && l.decD2d(plain) == Some(d2d);
        DecryptedExactly(l, keys, hb, plain);
      }
    }
  }

  /** What one side encrypts and signs with is what the other decrypts and verifies with. */
  ghost predicate Paired(sender: SessionKeys, receiver: SessionKeys) {
    sender.encrypt == receiver.decrypt && sender.sendMac == receiver.recvMac
  }

  lemma OpenSeal(l: Library, mine: SessionKeys, yours: SessionKeys, iv: Bytes, sequence: int, frame: OfflineFrame)
    requires LawfulCodecs(l) && LawfulCipher(l) && Paired(mine, yours) && |iv| == 16
    ensures Open(l, yours, Seal(l, mine, iv, sequence, frame))
         == Message(DeviceToDevice(sequence, l.encOffline(frame)))
  {
    var d2d := DeviceToDevice(sequence, l.encOffline(frame));
    var plain := l.encD2d(d2d);
    UnpadPad(plain);
    var padded := Pad(plain);
    assert l.cbcDecrypt(mine.encrypt, iv, l.cbcEncrypt(mine.encrypt, iv, padded)) == padded;
    var hb := HeaderAndBody(iv, l.cbcEncrypt(mine.encrypt, iv, padded));
    assert l.decHb(l.encHb(hb)) == Some(hb);
    var sm := SecureMessage(l.encHb(hb), l.mac(mine.sendMac, l.encHb(hb)));
    assert l.decSm(l.encSm(sm)) == Some(sm);
    assert l.decD2d(plain) == Some(d2d);
  }

  // --- Framing ---------------------------------------------------------------------------------

  /** A length as four big-endian bytes, cut to 32 bits as `as u32` does. */
  function LengthBytes(n: nat): (b: Bytes)
    ensures |b| == 4
  {
    [n / 0x100_0000 % 256, n / 0x1_0000 % 256, n / 0x100 % 256, n % 256]
  }

  function LengthOf(b: Bytes): nat
    requires |b| == 4
  {
    var p: nat, q: nat, r: nat, s: nat := b[0], b[1], b[2], b[3];
    p * 0x100_0000 + q * 0x1_0000 + r * 0x100 + s
  }

  /** The byte stream `send_frame` produces for a list of messages. */
  function Stream(wires: seq<Bytes>): Bytes {
    if |wires| == 0 then [] else LengthBytes(|wires[0]|) + wires[0] + Stream(wires[1..])
  }

  datatype Parsed = Parsed(wires: seq<Bytes>, ok: bool)

  /** The reading loop: a length prefix, a bound, then that many bytes. It stops without an error at
      a clean end of stream. */
  function Parse(stream: Bytes): Parsed
    decreases |stream|
  {
    if |stream| == 0 then Parsed([], true)
    else if |stream| < 4 then Parsed([], false)
    else
      var n := LengthOf(stream[..4]);
      if n > SANE_FRAME_LENGTH || 4 + n > |stream| then Parsed([], false)
      else
        var rest := Parse(stream[4 + n..]);
        Parsed([stream[4..4 + n]] + rest.wires, rest.ok)
  }

  predicate Fits(wire: Bytes) {
    |wire| <= SANE_FRAME_LENGTH
  }

  function FittingPrefix(wires: seq<Bytes>): (n: nat)
    ensures n <= |wires|
    ensures forall k | 0 <= k < n :: Fits(wires[k])
    ensures n < |wires| ==> !Fits(wires[n])
  {
    if |wires| == 0 || !Fits(wires[0]) then 0
    else
      var n := FittingPrefix(wires[1..]);
      assert forall k | 0 <= k < n :: wires[1 + k] == wires[1..][k];
      assert n < |wires| - 1 ==> wires[1 + n] == wires[1..][n];
      1 + n
  }

  lemma LengthRoundTrip(n: nat)
    requires n < 0x1_0000_0000
    ensures LengthOf(LengthBytes(n)) == n
  {
    var a, b, c := n / 0x100, n / 0x1_0000, n / 0x100_0000;
    assert n == a * 0x100 + n % 0x100;
    assert b == a / 0x100 && a == b * 0x100 + a % 0x100;
    assert c == b / 0x100 && b == c * 0x100 + b % 0x100;
  }

  /** The reader gets back exactly the sent messages, up to the first one over the frame limit. */
  lemma {:induction false} StreamRoundTrip(wires: seq<Bytes>)
    requires forall k | 0 <= k < |wires| :: |wires[k]| < 0x1_0000_0000
    ensures var n := FittingPrefix(wires);
            Parse(Stream(wires)) == Parsed(wires[..n], n == |wires|)
  {
    if |wires| > 0 {
      var w, rest := wires[0], wires[1..];
      StreamRoundTrip(rest);
      LengthRoundTrip(|w|);
      var stream := Stream(wires);
      assert stream[..4] == LengthBytes(|w|);
      if Fits(w) {
        assert stream[4..4 + |w|] == w;
        assert stream[4 + |w|..] == Stream(rest);
        var n := FittingPrefix(rest);
        assert wires[..1 + n] == [w] + rest[..n];
      }
    }
  }
}
