/** The pieces of java.lang the merchant code relies on: the range of `long`,
    `Long.parseLong`, `Long.toString` and `String.toUpperCase`. */
module JavaLang {
  import opened Wrappers

  const LONG_MIN: int := -0x8000_0000_0000_0000
  const LONG_MAX: int := 0x7FFF_FFFF_FFFF_FFFF

  /** A Java `long` (and the value of a non-null `Long`). */
  type Long = x: int | LONG_MIN <= x <= LONG_MAX

  predicate IsDigit(c: char) { '0' <= c <= '9' }

  predicate AllDigits(s: string) { forall i :: 0 <= i < |s| ==> IsDigit(s[i]) }

  function DigitValue(c: char): (d: nat)
    requires IsDigit(c)
    ensures d < 10
  {
    (c as int) - ('0' as int)
  }

  function DigitChar(d: nat): (c: char)
    requires d < 10
    ensures IsDigit(c) && DigitValue(c) == d
  {
    (('0' as int) + d) as char
  }

  /** The number a string of decimal digits denotes, most significant first. */
  function DigitsValue(s: string): nat
    requires AllDigits(s)
  {
    if |s| == 0 then 0 else DigitsValue(s[..|s| - 1]) * 10 + DigitValue(s[|s| - 1])
  }

  /** Whether `s` starts with a sign character. */
  predicate HasSign(s: string)
  {
    |s| > 0 && (s[0] == '-' || s[0] == '+')
  }

  /** `s` without its optional leading sign. */
  function Unsigned(s: string): string
  {
    if HasSign(s) then s[1..] else s
  }

  /** The number an optional sign followed by decimal digits denotes. */
  function SignedValue(s: string): int
    requires AllDigits(Unsigned(s))
  {
    var magnitude: int := DigitsValue(Unsigned(s));
    if |s| > 0 && s[0] == '-' then -magnitude else magnitude
  }

  /** `Long.parseLong(s)`: an optional sign followed by at least one decimal
      digit, whose value fits in a `long`; anything else is a
      NumberFormatException (here `None`). */
  function ParseLong(s: string): (r: Option<Long>)
    ensures r.Some? <==> |Unsigned(s)| > 0 && AllDigits(Unsigned(s)) && LONG_MIN <= SignedValue(s) <= LONG_MAX
    ensures r.Some? ==> AllDigits(Unsigned(s)) && r.value == SignedValue(s)
    ensures |s| == 0 ==> r.None?
    ensures s == "-" || s == "+" ==> r.None?
    ensures (exists i :: 0 <= i < |s| && !IsDigit(s[i]) && !(i == 0 && (s[0] == '-' || s[0] == '+'))) ==> r.None?
  {
    var body := Unsigned(s);
    if |body| == 0 || !AllDigits(body) then
      assert HasSign(s) ==> forall i :: 1 <= i < |s| ==> s[i] == body[i - 1];
      None
    else
      var v := SignedValue(s);
      if LONG_MIN <= v <= LONG_MAX then
        assert HasSign(s) ==> forall i :: 1 <= i < |s| ==> s[i] == body[i - 1];
        Some(v)
      else None
  }

  /** Decimal digits with no leading zero; zero is the single digit "0". */
  predicate CanonicalDigits(d: string)
  {
    |d| > 0 && AllDigits(d) && (d[0] != '0' || |d| == 1)
  }

  /** The form `Long.toString` writes: canonical digits, after a minus sign
      for a negative value (never "-0"). */
  predicate Canonical(s: string)
  {
    if |s| > 0 && s[0] == '-' then CanonicalDigits(s[1..]) && s[1] != '0'
    else CanonicalDigits(s)
  }

  /** The decimal digits of `n` with no leading zero. */
  function NatToDecimal(n: nat): (s: string)
    ensures CanonicalDigits(s)
    ensures s[0] != '0' || n == 0
    ensures DigitsValue(s) == n
  {
    if n < 10 then [DigitChar(n)]
    else
      var prefix := NatToDecimal(n / 10);
      var s := prefix + [DigitChar(n % 10)];
      assert s[..|s| - 1] == prefix;
      s
  }

  /** `Long.toString(x)`: a minus sign for negative values, then the digits
      with no leading zero. Parsing it back gives `x` again. */
  function LongToString(x: Long): (s: string)
    ensures Canonical(s)
    ensures s[0] == '-' <==> x < 0
    ensures ParseLong(s) == Some(x)
  {
    if x < 0 then
      var magnitude: nat := -(x as int);
      var s := "-" + NatToDecimal(magnitude);
      assert s[1..] == NatToDecimal(magnitude);
      s
    else NatToDecimal(x)
  }

  /** Distinct ids have distinct decimal strings. */
  lemma LongToStringInjective(x: Long, y: Long)
    requires LongToString(x) == LongToString(y)
    ensures x == y
  {
    assert ParseLong(LongToString(x)) == Some(x);
  }

  /** A digit string that does not start with '0' denotes at least 1. */
  lemma {:induction false} LeadingDigitPositive(d: string)
    requires |d| > 0 && AllDigits(d) && d[0] != '0'
    ensures DigitsValue(d) >= 1
  {
    var prefix := d[..|d| - 1];
    if |d| == 1 {
      assert prefix == [];
    } else {
      assert prefix[0] == d[0];
      LeadingDigitPositive(prefix);
    }
  }

  /** Canonical digits are the decimal form of the number they denote. */
  lemma {:induction false} CanonicalDigitsAreDecimal(d: string)
    requires CanonicalDigits(d)
    ensures NatToDecimal(DigitsValue(d)) == d
  {
    var prefix := d[..|d| - 1];
    var last := d[|d| - 1];
    if |d| == 1 {
      assert prefix == [];
      assert DigitChar(DigitValue(last)) == last;
    } else {
      assert prefix[0] == d[0];
      assert CanonicalDigits(prefix);
      LeadingDigitPositive(prefix);
      CanonicalDigitsAreDecimal(prefix);
      var v := DigitsValue(d);
      assert v / 10 == DigitsValue(prefix) && v % 10 == DigitValue(last);
      assert DigitChar(DigitValue(last)) == last;
      assert d == prefix + [last];
    }
  }

  /** `Long.toString(x)` is the only canonical string that parses to `x`:
      the other strings `Long.parseLong` accepts for `x` have a '+' sign or
      leading zeros. */
  lemma CanonicalIsLongToString(s: string, x: Long)
    requires Canonical(s) && ParseLong(s) == Some(x)
    ensures s == LongToString(x)
  {
    if s[0] == '-' {
      var digits := s[1..];
      assert Unsigned(s) == digits;
      LeadingDigitPositive(digits);
      CanonicalDigitsAreDecimal(digits);
      assert s == "-" + digits;
    } else {
      assert Unsigned(s) == s;
      CanonicalDigitsAreDecimal(s);
    }
  }

  /** `Long.parseLong` rejects decimal strings whose value lies outside the
      64-bit range, and accepts every one inside it. */
  lemma ParseLongRange(n: nat)
    ensures ParseLong(NatToDecimal(n)) == (if n <= LONG_MAX then Some(n) else None)
    ensures ParseLong("-" + NatToDecimal(n)) == (if n <= -LONG_MIN then Some(-(n as int)) else None)
  {
    assert Unsigned(NatToDecimal(n)) == NatToDecimal(n);
    assert Unsigned("-" + NatToDecimal(n)) == NatToDecimal(n);
  }

  /** `Character.toUpperCase` on ASCII letters; every other character is kept. */
  function ToUpperChar(c: char): char
  {
    if 'a' <= c <= 'z' then ((c as int) - 32) as char else c
  }

  /** `String.toUpperCase()`, character by character over ASCII. */
  function ToUpperAscii(s: string): (r: string)
    ensures |r| == |s|
    ensures forall i :: 0 <= i < |s| ==> r[i] == ToUpperChar(s[i])
  {
    if |s| == 0 then [] else [ToUpperChar(s[0])] + ToUpperAscii(s[1..])
  }

  /** Upper-casing leaves no lower-case ASCII letter and is idempotent. */
  lemma ToUpperAsciiIdempotent(s: string)
    ensures forall i :: 0 <= i < |s| ==> !('a' <= ToUpperAscii(s)[i] <= 'z')
    ensures ToUpperAscii(ToUpperAscii(s)) == ToUpperAscii(s)
  {
  }
}
