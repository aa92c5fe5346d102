/**
 * Money as integer cents, and the decimal renderings the storefront prints:
 * an integer as JavaScript's `String(n)` writes it, and an amount of cents as
 * `amount.toFixed(2)` writes it ("D.CC", with a leading '-' when negative).
 * Each rendering has a parser beside it, and the round trip is proved.
 */
module Money {
  import opened Seqs

  /** An amount of money in cents (1.25 dollars is 125). */
  type Cents = int

  predicate IsDigit(c: char)
  {
    '0' <= c <= '9'
  }

  predicate AllDigits(s: string)
  {
    forall i :: 0 <= i < |s| ==> IsDigit(s[i])
  }

  function DigitChar(d: nat): (c: char)
    requires d < 10
    ensures IsDigit(c) && c as int - '0' as int == d
  {
    ('0' as int + d) as char
  }

  function DigitValue(c: char): nat
    requires IsDigit(c)
  {
    c as int - '0' as int
  }

  /** Decimal digits of `n`, most significant first, with no leading zero. */
  function NatToString(n: nat): (s: string)
    ensures |s| >= 1 && AllDigits(s)
    ensures s[0] == '0' ==> n == 0
  {
    if n < 10 then [DigitChar(n)] else NatToString(n / 10) + [DigitChar(n % 10)]
  }

  /** The value of a string of decimal digits. */
  function ParseNat(s: string): nat
    requires AllDigits(s)
  {
    if s == [] then 0 else ParseNat(s[..|s| - 1]) * 10 + DigitValue(s[|s| - 1])
  }

  /** Text made only of digits, minus signs and decimal points: a number, on one line. */
  predicate NumericText(s: string)
  {
    forall i :: 0 <= i < |s| ==> IsDigit(s[i]) || s[i] == '-' || s[i] == '.'
  }

  /** `String(i)` for an integer number. */
  function IntToString(i: int): (s: string)
    ensures NumericText(s)
  {
    if i < 0 then "-" + NatToString(-i) else NatToString(i)
  }

  /** Reads back what IntToString writes. */
  function ParseInt(s: string): Option<int>
  {
    if |s| >= 2 && s[0] == '-' && AllDigits(s[1..]) then Some(0 - ParseNat(s[1..]))
    else if |s| >= 1 && AllDigits(s) then Some(ParseNat(s))
    else None
  }

  /** "D.CC" for a non-negative amount of cents: whole units, a point, exactly two digits of cents. */
  function UnsignedCents(a: nat): (s: string)
    ensures NumericText(s) && |s| >= 4 && s[0] != '-'
  {
    NatToString(a / 100) + "." + [DigitChar(a % 100 / 10), DigitChar(a % 10)]
  }

  /** `(c / 100).toFixed(2)`, with a leading '-' for a negative amount. */
  function FormatCents(c: Cents): (s: string)
    ensures NumericText(s)
  {
    if c < 0 then "-" + UnsignedCents(-c) else UnsignedCents(c)
  }

  /** Reads "D.CC" back into cents. */
  function ParseUnsignedCents(s: string): Option<nat>
  {
    if |s| >= 4 && s[|s| - 3] == '.' && AllDigits(s[..|s| - 3]) && AllDigits(s[|s| - 2..])
    then Some(ParseNat(s[..|s| - 3]) * 100 + ParseNat(s[|s| - 2..]))
    else None
  }

  /** Reads "D.CC" or "-D.CC" back into cents. */
  function ParseCents(s: string): Option<Cents>
  {
    if |s| >= 1 && s[0] == '-' then
      match ParseUnsignedCents(s[1..])
      case Some(a) => Some(0 - a)
      case None => None
    else
      match ParseUnsignedCents(s)
      case Some(a) => Some(a)
      case None => None
  }

  lemma {:induction false} NatRoundTrip(n: nat)
    ensures ParseNat(NatToString(n)) == n
  {
    if n >= 10 {
      var s := NatToString(n);
      assert s[..|s| - 1] == NatToString(n / 10);
      NatRoundTrip(n / 10);
    }
  }

  /** What IntToString writes, ParseInt reads back unchanged. */
  lemma IntRoundTrip(i: int)
    ensures ParseInt(IntToString(i)) == Some(i)
  {
    var s := IntToString(i);
    if i < 0 {
      assert s[1..] == NatToString(-i);
      NatRoundTrip(-i);
    } else {
      NatRoundTrip(i);
    }
  }

  /** The two cents digits read back as the amount modulo 100. */
  lemma TwoDigitsRoundTrip(a: nat)
    ensures ParseNat([DigitChar(a % 100 / 10), DigitChar(a % 10)]) == a % 100
  {
    var cc := [DigitChar(a % 100 / 10), DigitChar(a % 10)];
    assert cc[..1] == [DigitChar(a % 100 / 10)] && cc[..1][..0] == [];
    assert ParseNat(cc[..1]) == a % 100 / 10;
    assert ParseNat(cc) == (a % 100 / 10) * 10 + a % 10;
    var r := a % 100;
    assert a == 10 * (10 * (a / 100) + r / 10) + r % 10;
  }

  /** The unsigned "D.CC" text reads back as the amount. */
  lemma UnsignedCentsRoundTrip(a: nat)
    ensures ParseUnsignedCents(UnsignedCents(a)) == Some(a)
  {
    var units := NatToString(a / 100);
    var cc := [DigitChar(a % 100 / 10), DigitChar(a % 10)];
    var s := UnsignedCents(a);
    assert s[..|s| - 3] == units;
    assert s[|s| - 2..] == cc;
    NatRoundTrip(a / 100);
    TwoDigitsRoundTrip(a);
  }

  lemma ParseSigned(u: string)
    requires u == [] || u[0] != '-'
    ensures ParseCents("-" + u) == match ParseUnsignedCents(u) case Some(a) => Some(0 - a) case None => None
    ensures ParseCents(u) == match ParseUnsignedCents(u) case Some(a) => Some(a) case None => None
  {
    assert ("-" + u)[1..] == u;
  }

  /** What FormatCents writes, ParseCents reads back unchanged. */
  lemma CentsRoundTrip(c: Cents)
    ensures ParseCents(FormatCents(c)) == Some(c)
  {
    var a: nat := if c < 0 then -c else c;
    UnsignedCentsRoundTrip(a);
    ParseSigned(UnsignedCents(a));
  }

  /** FormatCents always writes exactly two digits after the point. */
  lemma FormatCentsShape(c: Cents)
    ensures var s := FormatCents(c);
      |s| >= 4 && s[|s| - 3] == '.' && IsDigit(s[|s| - 2]) && IsDigit(s[|s| - 1])
  {
  }
}
