/** Decimal numerals as `format!` writes them. */
module Decimals {

  function Digit(d: nat): char
    requires d < 10
  {
    '0' + d as char
  }

  function Decimal(n: nat): (s: string)
    ensures |s| >= 1
  {
    if n < 10 then [Digit(n)] else Decimal(n / 10) + [Digit(n % 10)]
  }

  predicate IsNumeral(s: string) {
    forall i | 0 <= i < |s| :: '0' <= s[i] <= '9'
  }

  function Value(s: string): nat
    requires IsNumeral(s)
  {
    if |s| == 0 then 0 else 10 * Value(s[..|s| - 1]) + (s[|s| - 1] - '0') as nat
  }

  /** Padded with zeros on the left to at least `width` characters, as `{:04}` does for width 4. */
  function PadZeros(s: string, width: nat): string
    decreases width - |s|
  {
    if |s| >= width then s else PadZeros("0" + s, width)
  }

  lemma {:induction false} DecimalValue(n: nat)
    ensures IsNumeral(Decimal(n)) && Value(Decimal(n)) == n
  {
    var s := Decimal(n);
    if n < 10 {
      assert s[..0] == [];
    } else {
      DecimalValue(n / 10);
      assert s[..|s| - 1] == Decimal(n / 10);
    }
  }

  lemma {:induction false} DecimalInjective(m: nat, n: nat)
    requires Decimal(m) == Decimal(n)
    ensures m == n
  {
    DecimalValue(m);
    DecimalValue(n);
  }

  lemma {:induction false} DecimalLength(n: nat)
    requires n < 10000
    ensures |Decimal(n)| <= 4
  {
    assert n / 10 / 10 / 10 < 10;
    assert |Decimal(n / 10 / 10 / 10)| == 1;
    assert |Decimal(n / 10 / 10)| <= 2;
  }

  lemma {:induction false} LeadingZeroValue(s: string)
    requires IsNumeral(s)
    ensures IsNumeral("0" + s) && Value("0" + s) == Value(s)
  {
    var t := "0" + s;
    if |s| == 0 {
      assert t[..0] == [];
    } else {
      LeadingZeroValue(s[..|s| - 1]);
      assert t[..|t| - 1] == "0" + s[..|s| - 1];
    }
  }

  lemma {:induction false} PadZerosValue(s: string, width: nat)
    requires IsNumeral(s)
    ensures var t := PadZeros(s, width);
            |t| == (if |s| >= width then |s| else width) && IsNumeral(t) && Value(t) == Value(s)
    decreases width - |s|
  {
    if |s| < width {
      LeadingZeroValue(s);
      PadZerosValue("0" + s, width);
    }
  }
}
