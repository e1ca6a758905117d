/** P-256 coordinates on the wire: the signed big-endian encoding of utils.rs and the
    last-32-bytes rule with which both requests rebuild the peer's point. */
module PointCodec {
  import opened Wrappers
  import opened Messages

  // The affine coordinates of a public key, 32 bytes each, as `to_encoded_point(false)` gives them.
  datatype Point = Point(x: Bytes, y: Bytes)
  {
    predicate WellFormed() {
      |x| == 32 && |y| == 32
    }
  }

  function Pow256(k: nat): (p: nat)
    ensures p >= 1
  {
    if k == 0 then 1 else 256 * Pow256(k - 1)
  }

  /** The number a big-endian byte string denotes (`BigUint::from_bytes_be`). */
  function ToNat(b: Bytes): nat {
    if |b| == 0 then 0 else 256 * ToNat(b[..|b| - 1]) + b[|b| - 1]
  }

  /** The shortest big-endian byte string for n (`BigUint::to_bytes_be`). */
  function ToBytesBe(n: nat): (b: Bytes)
    ensures |b| >= 1
  {
    if n < 256 then [n] else ToBytesBe(n / 256) + [n % 256]
  }

  /** `encode_point`: the two's-complement big-endian form of a non-negative number. */
  function EncodePoint(unsigned: Bytes): Bytes {
    var b := ToBytesBe(ToNat(unsigned));
    if b[0] > 0x7f then [0] + b else b
  }

  function Last32(b: Bytes): Bytes {
    if |b| > 32 then b[|b| - 32..] else b
  }

  /** What `finalize_key_exchange` parses: tag 4 and the two coordinates. */
  function Rebuild(key: EcKey): Bytes {
    [4] + Last32(key.x) + Last32(key.y)
  }

  /** `EncodedPoint::from_bytes` on an uncompressed point: it has 65 bytes or it is an error. */
  function Recover(key: EcKey): (p: Option<Point>)
    ensures p.Some? ==> p.value.WellFormed()
  {
    var bytes := Rebuild(key);
    if |bytes| != 65 then None else Some(Point(bytes[1..33], bytes[33..]))
  }

  function Published(p: Point): EcKey {
    EcKey(EncodePoint(p.x), EncodePoint(p.y))
  }

  // 2^247, the smallest coordinate whose signed encoding fills 32 bytes.
  const SMALLEST: nat := 0x80000000_00000000_00000000_00000000_00000000_00000000_00000000_000000

  lemma {:induction false} PowAdd(a: nat, b: nat)
    ensures Pow256(a + b) == Pow256(a) * Pow256(b)
  {
    if a > 0 {
      PowAdd(a - 1, b);
      assert Pow256(a + b) == 256 * (Pow256(a - 1) * Pow256(b));
    }
  }

  lemma SmallestIsPower()
    ensures SMALLEST == 128 * Pow256(30)
  {
    assert Pow256(1) == 0x100 && Pow256(2) == 0x10000 && Pow256(3) == 0x1000000;
    assert Pow256(4) == 0x100000000 && Pow256(5) == 0x10000000000;
    PowAdd(5, 5);
    PowAdd(10, 5);
    PowAdd(15, 15);
  }

  ghost predicate Survives(coordinate: Bytes) {
    ToNat(coordinate) >= SMALLEST
  }

  lemma {:induction false} ToNatBound(b: Bytes)
    ensures ToNat(b) < Pow256(|b|)
  {
    if |b| > 0 {
      ToNatBound(b[..|b| - 1]);
    }
  }

  lemma Regroup(lead: int, p: int)
    ensures lead * (256 * p) == 256 * (lead * p)
  {
  }

  lemma {:induction false} LeadingSum(b: Bytes)
    requires |b| >= 1
    ensures ToNat(b) == b[0] * Pow256(|b| - 1) + ToNat(b[1..])
  {
    if |b| == 1 {
      assert b[..0] == [];
    } else {
      var init := b[..|b| - 1];
      LeadingSum(init);
      assert b[1..][..|b| - 2] == init[1..];
      Regroup(b[0], Pow256(|b| - 2));
    }
  }

  lemma Monotone(a: int, b: int, p: nat)
    requires a <= b
    ensures a * p <= b * p
  {
  }

  lemma {:induction false} LeadingByte(b: Bytes)
    requires |b| >= 1
    ensures b[0] * Pow256(|b| - 1) <= ToNat(b) < b[0] * Pow256(|b| - 1) + Pow256(|b| - 1)
  {
    LeadingSum(b);
    ToNatBound(b[1..]);
  }

  /** A byte string without a leading zero is the shortest one for its number. */
  lemma {:induction false} ShortestIsUnique(b: Bytes)
    requires |b| >= 1 && (b[0] != 0 || |b| == 1)
    ensures ToBytesBe(ToNat(b)) == b
  {
    if |b| == 1 {
      assert b[..0] == [];
    } else {
      var init := b[..|b| - 1];
      LeadingByte(init);
      var lead, p := init[0], Pow256(|init| - 1);
      Monotone(1, lead, p);
      ShortestIsUnique(init);
      assert b == init + [b[|b| - 1]];
    }
  }

  lemma {:induction false} DropLeadingZero(b: Bytes)
    requires |b| >= 1 && b[0] == 0
    ensures ToNat(b) == ToNat(b[1..])
  {
    LeadingSum(b);
  }

  /** The shortest encoding of a number below 128 * 256^(k-1) has fewer than k bytes or no sign bit. */
  lemma {:induction false} NoSignBit(n: nat, k: nat)
    requires k >= 1 && n < 128 * Pow256(k - 1)
    ensures |ToBytesBe(n)| < k || (|ToBytesBe(n)| == k && ToBytesBe(n)[0] <= 0x7f)
  {
    if k > 1 && n >= 256 {
      NoSignBit(n / 256, k - 1);
    }
  }

  lemma LargeCoordinate(c: Bytes)
    requires |c| == 32 && c[0] != 0
    ensures Survives(c)
  {
    LeadingByte(c);
    Monotone(1, c[0], Pow256(31));
    PowStep();
    SmallestIsPower();
  }

  lemma LargeEncoding(c: Bytes)
    requires |c| == 32 && c[0] != 0
    ensures Last32(EncodePoint(c)) == c
  {
    ShortestIsUnique(c);
    assert ([0] + c)[1..] == c;
  }

  lemma PowStep()
    ensures Pow256(31) == 256 * Pow256(30)
  {
  }

  /** The encoding of a coordinate with leading byte 0 and second byte at least 128 gets its zero back. */
  lemma SignByteRestored(c: Bytes, d: Bytes)
    requires |c| == 32 && c == [0] + d && d[0] >= 128
    ensures EncodePoint(c) == c
  {
    assert c[1..] == d;
    DropLeadingZero(c);
    ShortestIsUnique(d);
  }

  lemma ShortCoordinate(c: Bytes)
    requires |c| == 32 && !Survives(c)
    ensures |EncodePoint(c)| < 32
  {
    SmallestIsPower();
    NoSignBit(ToNat(c), 31);
  }

  lemma SecondByte(d: Bytes)
    requires |d| == 31
    ensures Survives(d) <==> d[0] >= 128
  {
    LeadingByte(d);
    SmallestIsPower();
    if d[0] >= 128 {
      Monotone(128, d[0], Pow256(30));
    } else {
      Monotone(d[0], 127, Pow256(30));
    }
  }

  lemma SmallCoordinate(c: Bytes)
    requires |c| == 32 && c[0] == 0
    ensures Survives(c) ==> EncodePoint(c) == c
    ensures !Survives(c) ==> |EncodePoint(c)| < 32
  {
    var d := c[1..];
    assert c == [0] + d;
    DropLeadingZero(c);
    SecondByte(d);
    if d[0] >= 128 {
      SignByteRestored(c, d);
    } else {
      ShortCoordinate(c);
    }
  }

  /** A 32-byte coordinate survives exactly when it is at least 2^247; otherwise bytes are lost. */
  lemma CoordinateRoundTrip(c: Bytes)
    requires |c| == 32
    ensures Survives(c) ==> Last32(EncodePoint(c)) == c
    ensures !Survives(c) ==> |Last32(EncodePoint(c))| < 32
  {
    if c[0] != 0 {
      LargeCoordinate(c);
      LargeEncoding(c);
    } else {
      SmallCoordinate(c);
    }
  }

  /** The point a peer publishes is rebuilt exactly when both its coordinates are at least 2^247;
      otherwise the rebuilt string is too short and the exchange fails. */
  lemma PointRoundTrip(p: Point)
    requires p.WellFormed()
    ensures Recover(Published(p)) == (if Survives(p.x) && Survives(p.y) then Some(p) else None)
    ensures Survives(p.x) && Survives(p.y) ==> Rebuild(Published(p)) == [4] + p.x + p.y
    ensures !(Survives(p.x) && Survives(p.y)) ==> |Rebuild(Published(p))| < 65
  {
    CoordinateRoundTrip(p.x);
    CoordinateRoundTrip(p.y);
    var key := Published(p);
    if Survives(p.x) && Survives(p.y) {
      assert Rebuild(key) == [4] + p.x + p.y;
      assert Rebuild(key)[1..33] == p.x;
      assert Rebuild(key)[33..] == p.y;
    }
  }
}
