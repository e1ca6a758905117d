/** The pin both users compare: `to_four_digit_string` of utils.rs, with its 32-bit arithmetic. */
module PinCode {
  import opened Messages
  import opened Decimals

  newtype int32 = x: int | -0x8000_0000 <= x < 0x8000_0000

  const MODULO := 9973
  const BASE := 31

  /** The remainder of truncating division by the modulus, which has the sign of the dividend. */
  function Rem(a: int): (r: int)
    ensures -MODULO < r < MODULO
  {
    if a >= 0 then a % MODULO else -((-a) % MODULO)
  }

  lemma Multiple(q: int)
    ensures MODULO * q % MODULO == 0
  {
  }

  lemma RemCongruent(a: int)
    ensures (a - Rem(a)) % MODULO == 0
  {
    var q := if a >= 0 then a / MODULO else -(-a / MODULO);
    assert a - Rem(a) == MODULO * q;
    Multiple(q);
  }

  /** A byte read as a signed 8-bit number. */
  function Signed(b: byte): (s: int)
    ensures -128 <= s < 128
  {
    if b < 128 then b else b - 256
  }

  function Power(k: nat): int {
    if k == 0 then 1 else BASE * Power(k - 1)
  }

  /** The polynomial the hash stands for: byte i weighs 31^i. */
  function Weighted(bytes: Bytes): int {
    if |bytes| == 0 then 0
    else Weighted(bytes[..|bytes| - 1]) + Signed(bytes[|bytes| - 1]) * Power(|bytes| - 1)
  }

  function Multiplier(k: nat): int {
    if k == 0 then 1 else Rem(Multiplier(k - 1) * BASE)
  }

  function Hash(bytes: Bytes): int {
    if |bytes| == 0 then 0
    else
      Rem(Hash(bytes[..|bytes| - 1]) + Signed(bytes[|bytes| - 1]) * Multiplier(|bytes| - 1))
  }

  function Abs(x: int): nat {
    if x < 0 then -x else x
  }

  function Pin(bytes: Bytes): string {
    PadZeros(Decimal(Abs(Hash(bytes))), 4)
  }

  ghost predicate Congruent(a: int, b: int) {
    (a - b) % MODULO == 0
  }

  /** 31 is a unit modulo 9973 (its inverse is 2252), so no multiplier ever vanishes. */
  lemma {:induction false} MultiplierRange(k: nat)
    ensures 0 < Multiplier(k) < MODULO
  {
    if k > 0 {
      MultiplierRange(k - 1);
      var m := Multiplier(k - 1);
      UnitNeverVanishes(m);
    }
  }

  lemma UnitNeverVanishes(m: int)
    requires 0 < m < MODULO
    ensures m * BASE % MODULO != 0
  {
    var q, r := m * BASE / MODULO, m * BASE % MODULO;
    // 31 * 2252 == 7 * 9973 + 1
    assert m == MODULO * (2252 * q - 7 * m) + 2252 * r;
  }

  lemma {:induction false} MultiplierMeaning(k: nat)
    ensures Congruent(Multiplier(k), Power(k))
  {
    if k > 0 {
      MultiplierMeaning(k - 1);
      CongruentProduct(Multiplier(k - 1), Power(k - 1), BASE);
      RemCongruent(Multiplier(k - 1) * BASE);
      CongruentTrans(Multiplier(k), Multiplier(k - 1) * BASE, Power(k));
    }
  }

  lemma CongruentTrans(a: int, b: int, c: int)
    requires (b - a) % MODULO == 0 && Congruent(b, c)
    ensures Congruent(a, c)
  {
  }

  lemma CongruentProduct(a: int, b: int, c: int)
    requires Congruent(a, b)
    ensures Congruent(c * a, c * b) && Congruent(a * c, b * c)
  {
    var q := (a - b) / MODULO;
    assert a - b == MODULO * q;
    assert c * a - c * b == MODULO * (c * q);
    assert a * c - b * c == c * a - c * b;
    Multiple(c * q);
  }

  lemma CongruentSum(a: int, b: int, c: int, d: int)
    requires Congruent(a, b) && Congruent(c, d)
    ensures Congruent(a + c, b + d)
  {
  }

  /** The hash is below the modulus in absolute value and congruent to the signed polynomial. */
  lemma {:induction false} HashMeaning(bytes: Bytes)
    ensures -MODULO < Hash(bytes) < MODULO
    ensures Congruent(Hash(bytes), Weighted(bytes))
  {
    if |bytes| > 0 {
      var n := |bytes| - 1;
      HashMeaning(bytes[..n]);
      MultiplierMeaning(n);
      CongruentProduct(Multiplier(n), Power(n), Signed(bytes[n]));
      var next := Hash(bytes[..n]) + Signed(bytes[n]) * Multiplier(n);
      CongruentSum(Hash(bytes[..n]), Weighted(bytes[..n]),
                   Signed(bytes[n]) * Multiplier(n), Signed(bytes[n]) * Power(n));
      RemCongruent(next);
      CongruentTrans(Hash(bytes), next, Weighted(bytes));
    }
  }

  /** The printed pin has exactly four digits and they denote the absolute value of the hash. */
  lemma {:induction false} PinMeaning(bytes: Bytes)
    ensures |Pin(bytes)| == 4 && IsNumeral(Pin(bytes))
    ensures var v := Value(Pin(bytes));
            v < MODULO && (Congruent(v, Weighted(bytes)) || Congruent(-(v as int), Weighted(bytes)))
  {
    HashMeaning(bytes);
    var h := Abs(Hash(bytes));
    DecimalValue(h);
    DecimalLength(h);
    PadZerosValue(Decimal(h), 4);
  }

  lemma ProductRange(s: int, m: int)
    requires -128 <= s < 128 && 0 < m < MODULO
    ensures -128 * MODULO < s * m < 128 * MODULO
  {
  }

  /** `%` on 32-bit integers. */
  function Rem32(a: int32): (r: int32)
    requires a > -0x8000_0000
    ensures r as int == Rem(a as int)
  {
    if a >= 0 then a % 9973 else -((-a) % 9973)
  }

  /** `to_four_digit_string`: no intermediate value leaves the 32-bit range, whatever the length. */
  method ToFourDigitString(bytes: Bytes) returns (pin: string)
    ensures pin == Pin(bytes)
  {
    var hash: int32 := 0;
    var multiplier: int32 := 1;
    for i := 0 to |bytes|
      invariant hash as int == Hash(bytes[..i])
      invariant multiplier as int == Multiplier(i)
    {
      assert bytes[..i + 1][..i] == bytes[..i];
      HashMeaning(bytes[..i]);
      MultiplierRange(i);
      ProductRange(Signed(bytes[i]), Multiplier(i));
      var b := Signed(bytes[i]) as int32;
      hash := Rem32(hash + b * multiplier);
      multiplier := Rem32(multiplier * 31);
    }
    assert bytes[..|bytes|] == bytes;
    HashMeaning(bytes);
    pin := PadZeros(Decimal(Abs(hash as int)), 4);
  }
}
