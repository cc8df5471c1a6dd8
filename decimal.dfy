/** The two string conversions the pages rely on: `String(n)` for an integer
    and `padStart(width, fill)`, with a decimal parser as their inverse. */
module Decimal {

  predicate IsDigit(c: char)
  {
    '0' <= c <= '9'
  }

  predicate AllDigits(s: string)
  {
    forall i :: 0 <= i < |s| ==> IsDigit(s[i])
  }

  function DigitChar(d: nat): (c: char)
    requires d < 10
    ensures IsDigit(c) && c as int - '0' as int == d
  {
    ('0' as int + d) as char
  }

  function DigitValue(c: char): nat
    requires IsDigit(c)
  {
    c as int - '0' as int
  }

  /** The shortest decimal spelling of a non-negative integer. */
  function NatString(n: nat): (s: string)
    ensures 1 <= |s| && AllDigits(s)
    ensures |s| == 1 <==> n < 10
    ensures |s| > 1 ==> s[0] != '0'
    ensures n < 100 ==> |s| <= 2
  {
    if n < 10 then [DigitChar(n)] else NatString(n / 10) + [DigitChar(n % 10)]
  }

  /** `String(n)` for an integer: a minus sign followed by the digits of its
      magnitude when it is negative. */
  function DecimalString(n: int): (s: string)
    ensures IsDecimal(s)
    ensures n < 0 <==> s[0] == '-'
    ensures n < 0 ==> |s| >= 2
  {
    if n < 0 then "-" + NatString(-n) else NatString(n)
  }

  /** Optional minus sign, then at least one digit. */
  predicate IsDecimal(s: string)
  {
    if |s| > 0 && s[0] == '-' then |s| >= 2 && AllDigits(s[1..])
    else |s| >= 1 && AllDigits(s)
  }

  function ParseNat(s: string): nat
    requires AllDigits(s)
  {
    if s == [] then 0 else ParseNat(s[..|s| - 1]) * 10 + DigitValue(s[|s| - 1])
  }

  function ParseDecimal(s: string): int
    requires IsDecimal(s)
  {
    if s[0] == '-' then -(ParseNat(s[1..]) as int) else ParseNat(s)
  }

  lemma {:induction false} NatStringRoundTrip(n: nat)
    ensures ParseNat(NatString(n)) == n
  {
    if n >= 10 {
      NatStringRoundTrip(n / 10);
      var s := NatString(n);
      assert s[..|s| - 1] == NatString(n / 10);
    }
  }

  /** `String(n)` is the shortest spelling: no leading zero, neither before
      nor after a minus sign, except for zero itself. */
  lemma DecimalStringCanonical(n: int)
    ensures var s := DecimalString(n);
      && (n >= 0 && |s| > 1 ==> s[0] != '0')
      && (n < 0 ==> s[1] != '0')
  {
    if n < 0 {
      assert DecimalString(n)[1..] == NatString(-n);
    }
  }

  /** Reading back what `String(n)` printed gives `n`, for every integer. */
  lemma DecimalRoundTrip(n: int)
    ensures ParseDecimal(DecimalString(n)) == n
  {
    if n < 0 {
      NatStringRoundTrip(-n);
      assert DecimalString(n)[1..] == NatString(-n);
    } else {
      NatStringRoundTrip(n);
    }
  }

  /** `s.padStart(width, fill)` for a one-character `fill`: strings already
      `width` long or longer come back unchanged; shorter ones get copies of
      `fill` in front until they are `width` long. */
  function PadStart(s: string, width: nat, fill: char): (r: string)
    ensures |s| >= width ==> r == s
    ensures |s| < width ==> |r| == width
    ensures |r| >= |s| && r[|r| - |s|..] == s
    ensures forall i :: 0 <= i < |r| - |s| ==> r[i] == fill
    decreases width - |s|
  {
    if |s| >= width then s
    else
      var r := PadStart([fill] + s, width, fill);
      assert r[|r| - |s|..] == r[|r| - |s| - 1..][1..];
      r
  }

  /** The rendering every countdown field uses: `String(n).padStart(2, '0')`.
      It is never shorter than two characters, a single digit gets one
      leading zero, and any other text is left as it is. */
  function TwoDigit(n: int): (s: string)
    ensures |s| >= 2
    ensures 0 <= n < 10 ==> s == ['0'] + DecimalString(n)
    ensures (n < 0 || n >= 10) ==> s == DecimalString(n)
  {
    PadStart(DecimalString(n), 2, '0')
  }

  /** A value in [0, 100) renders as exactly two digits that read back as
      the value. */
  lemma TwoDigitInRange(n: int)
    requires 0 <= n < 100
    ensures |TwoDigit(n)| == 2 && AllDigits(TwoDigit(n))
    ensures ParseNat(TwoDigit(n)) == n
  {
    NatStringRoundTrip(n);
    var s := TwoDigit(n);
    if n < 10 {
      assert DecimalString(n) == [DigitChar(n)];
      assert s == ['0', DigitChar(n)];
      assert s[..1] == ['0'];
      assert ParseNat(['0']) == 0 by { assert ['0'][..0] == []; }
    } else {
      assert s == NatString(n);
    }
  }

  /** A negative value is never padded: its own text (minus sign included)
      is already at least two characters long. */
  lemma TwoDigitNegative(n: int)
    requires n < 0
    ensures TwoDigit(n) == DecimalString(n)
    ensures ParseDecimal(TwoDigit(n)) == n
  {
    DecimalRoundTrip(n);
  }

  /** A non-negative value of any size keeps all its digits and reads back
      as itself once the padding zeros are skipped. */
  lemma TwoDigitNonNegative(n: int)
    requires n >= 0
    ensures |TwoDigit(n)| >= 2 && AllDigits(TwoDigit(n))
    ensures ParseNat(TwoDigit(n)) == n
  {
    if n < 100 {
      TwoDigitInRange(n);
    } else {
      NatStringRoundTrip(n);
    }
  }
}
