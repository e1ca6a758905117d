/** The URL-safe alphabet without padding (sections 3.2 and 5 of RFC 4648), as `URL_SAFE_NO_PAD` uses it. */
module Base64Url {
  import opened Wrappers
  import opened Messages

  type sextet = x: int | 0 <= x < 64

  function ToChar(v: sextet): char {
    if v < 26 then 'A' + v as char
    else if v < 52 then 'a' + (v - 26) as char
    else if v < 62 then '0' + (v - 52) as char
    else if v == 62 then '-'
    else '_'
  }

  function FromChar(c: char): Option<sextet> {
    if 'A' <= c <= 'Z' then Some((c - 'A') as int)
    else if 'a' <= c <= 'z' then Some((c - 'a') as int + 26)
    else if '0' <= c <= '9' then Some((c - '0') as int + 52)
    else if c == '-' then Some(62)
    else if c == '_' then Some(63)
    else None
  }

  lemma CharRoundTrip(v: sextet)
    ensures FromChar(ToChar(v)) == Some(v)
  {
  }

  lemma CharUnique(c: char)
    ensures FromChar(c).Some? ==> ToChar(FromChar(c).value) == c
  {
  }

  // The three bytes that four sextets hold, each from two neighbours.
  function First(p: sextet, q: sextet): byte {
    var x: int, y: int := p, q;
    x * 4 + y / 16
  }

  function Second(p: sextet, q: sextet): byte {
    var x: int, y: int := p, q;
    x % 16 * 16 + y / 4
  }

  function Third(p: sextet, q: sextet): byte {
    var x: int, y: int := p, q;
    x % 4 * 64 + y
  }

  /** Sextets of a byte string: three bytes make four, a tail of one or two bytes makes two or three. */
  function Split(b: Bytes): seq<sextet> {
    if |b| == 0 then []
    else if |b| == 1 then [b[0] / 4, b[0] % 4 * 16]
    else if |b| == 2 then [b[0] / 4, b[0] % 4 * 16 + b[1] / 16, b[1] % 16 * 4]
    else
      [b[0] / 4, b[0] % 4 * 16 + b[1] / 16, b[1] % 16 * 4 + b[2] / 64, b[2] % 64] + Split(b[3..])
  }

  /** The inverse; a lone sextet and non-zero trailing bits are errors. */
  function Join(s: seq<sextet>): Option<Bytes> {
    if |s| == 0 then Some([])
    else if |s| == 1 then None
    else if |s| == 2 then if s[1] % 16 != 0 then None else Some([First(s[0], s[1])])
    else if |s| == 3 then
      if s[2] % 4 != 0 then None else Some([First(s[0], s[1]), Second(s[1], s[2])])
    else
      match Join(s[4..])
      case None => None
      case Some(rest) =>
        Some([First(s[0], s[1]), Second(s[1], s[2]), Third(s[2], s[3])] + rest)
  }

  function Spell(s: seq<sextet>): (r: string)
    ensures |r| == |s|
  {
    if |s| == 0 then "" else [ToChar(s[0])] + Spell(s[1..])
  }

  function Read(s: string): (r: Option<seq<sextet>>)
    ensures r.Some? ==> |r.value| == |s|
  {
    if |s| == 0 then Some([])
    else
      match (FromChar(s[0]), Read(s[1..]))
      case (Some(v), Some(rest)) => Some([v] + rest)
      case _ => None
  }

  function Encode(b: Bytes): string {
    Spell(Split(b))
  }

  function Decode(s: string): Option<Bytes> {
    match Read(s)
    case None => None
    case Some(v) => Join(v)
  }

  lemma {:induction false} ReadSpell(s: seq<sextet>)
    ensures Read(Spell(s)) == Some(s)
  {
    if |s| > 0 {
      ReadSpell(s[1..]);
      CharRoundTrip(s[0]);
      assert Spell(s)[1..] == Spell(s[1..]);
      assert s == [s[0]] + s[1..];
    }
  }

  lemma {:induction false} SpellRead(s: string)
    ensures Read(s).Some? ==> Spell(Read(s).value) == s
  {
    if |s| > 0 && Read(s).Some? {
      SpellRead(s[1..]);
      CharUnique(s[0]);
      var v := Read(s).value;
      assert v[1..] == Read(s[1..]).value;
      assert s == [s[0]] + s[1..];
    }
  }

  lemma BytesOfSextets(x: byte, y: byte, z: byte)
    ensures First(x / 4, x % 4 * 16 + y / 16) == x
    ensures Second(x % 4 * 16 + y / 16, y % 16 * 4 + z / 64) == y
    ensures Third(y % 16 * 4 + z / 64, z % 64) == z
  {
  }

  lemma {:induction false} JoinSplit(b: Bytes)
    ensures Join(Split(b)) == Some(b)
  {
    if |b| == 1 {
      BytesOfSextets(b[0], 0, 0);
      assert b == [b[0]];
    } else if |b| == 2 {
      BytesOfSextets(b[0], b[1], 0);
      assert b == [b[0], b[1]];
    } else if |b| >= 3 {
      JoinSplit(b[3..]);
      JoinGroup(b[0], b[1], b[2], Split(b[3..]));
      assert b == [b[0], b[1], b[2]] + b[3..];
    }
  }

  lemma {:induction false} JoinGroup(x: byte, y: byte, z: byte, tail: seq<sextet>)
    requires Join(tail).Some?
    ensures Join([x / 4, x % 4 * 16 + y / 16, y % 16 * 4 + z / 64, z % 64] + tail)
         == Some([x, y, z] + Join(tail).value)
  {
    BytesOfSextets(x, y, z);
    var s: seq<sextet> := [x / 4, x % 4 * 16 + y / 16, y % 16 * 4 + z / 64, z % 64] + tail;
    assert s[4..] == tail;
  }

  lemma SextetsOfBytes(p: sextet, q: sextet, r: sextet, t: sextet)
    ensures First(p, q) / 4 == p && First(p, q) % 4 == q / 16
    ensures Second(q, r) / 16 == q % 16 && Second(q, r) % 16 == r / 4
    ensures Third(r, t) / 64 == r % 4 && Third(r, t) % 64 == t
  {
  }

  lemma {:induction false} SplitJoin(s: seq<sextet>)
    requires Join(s).Some?
    ensures Split(Join(s).value) == s
  {
    if |s| == 2 {
      SextetsOfBytes(s[0], s[1], 0, 0);
      assert s == [s[0], s[1]];
    } else if |s| == 3 {
      SextetsOfBytes(s[0], s[1], s[2], 0);
      assert s == [s[0], s[1], s[2]];
    } else if |s| >= 4 {
      SextetsOfBytes(s[0], s[1], s[2], s[3]);
      SplitJoin(s[4..]);
      assert Join(s).value[3..] == Join(s[4..]).value;
      assert s == [s[0], s[1], s[2], s[3]] + s[4..];
    }
  }

  /** Decoding inverts encoding, and every text that decodes is the encoding of what it decodes to. */
  lemma RoundTrip(b: Bytes)
    ensures Decode(Encode(b)) == Some(b)
  {
    JoinSplit(b);
    ReadSpell(Split(b));
  }

  lemma Canonical(s: string)
    ensures Decode(s).Some? ==> Encode(Decode(s).value) == s
  {
    if Decode(s).Some? {
      SpellRead(s);
      SplitJoin(Read(s).value);
    }
  }
}
