/** The JavaScript behaviour that both configurator components rely on,
    `Math.round` applied to a value held as integer tenths and the decimal
    text that a template literal produces for an integral number, together
    with the partners these are proved against: a characterisation of the
    rounding, and a parser (`ParseInt`, `DigitsValue`, `StripPrefix`, the
    `Option` type) that inverts the text. The text agrees with JavaScript's
    for integers of magnitude at most 2^53, which a double holds exactly;
    beyond that JavaScript writes the shortest digits that identify the
    double, and from 10^21 on it uses exponent form. None of the components
    prints such a number: their amounts lie between -30 and 337. */
module JsBuiltins {

  datatype Option<+T> = None | Some(value: T)

  // ---------------------------------------------------------------------
  // Math.round

  /** `Math.round(n / 10)`: the integer nearest to n/10, a half rounding
      towards positive infinity (so 13.5 gives 14 and -13.5 gives -13). */
  function RoundTenths(n: int): (r: int)
    ensures 10 * r - 5 <= n < 10 * r + 5
  {
    (n + 5) / 10
  }

  /** The characterisation of RoundTenths pins down a single integer. */
  lemma RoundTenthsUnique(n: int, r: int)
    requires 10 * r - 5 <= n < 10 * r + 5
    ensures r == RoundTenths(n)
  {
  }

  /** Math.round is monotone. */
  lemma RoundTenthsMonotone(a: int, b: int)
    requires a <= b
    ensures RoundTenths(a) <= RoundTenths(b)
  {
  }

  /** Adding a whole number before rounding adds it after rounding. */
  lemma RoundTenthsShift(n: int, x: int)
    ensures RoundTenths(10 * x + n) == x + RoundTenths(n)
  {
  }

  // ---------------------------------------------------------------------
  // Decimal digits

  predicate IsDigit(ch: char) {
    '0' <= ch <= '9'
  }

  predicate AllDigits(s: string) {
    forall i :: 0 <= i < |s| ==> IsDigit(s[i])
  }

  /** A digit string as `Number.prototype.toString` writes a non-negative
      integer: not empty, and no leading zero unless it is "0" itself. */
  predicate Canonical(s: string) {
    |s| > 0 && AllDigits(s) && (s[0] == '0' ==> s == "0")
  }

  function DigitChar(d: nat): (ch: char)
    requires d < 10
    ensures IsDigit(ch)
    ensures ch as int - '0' as int == d
  {
    ('0' as int + d) as char
  }

  function DigitValue(ch: char): (d: nat)
    requires IsDigit(ch)
    ensures d < 10
    ensures DigitChar(d) == ch
  {
    ch as int - '0' as int
  }

  // ---------------------------------------------------------------------
  // Integer to text, as `${n}` renders an integral number of magnitude
  // at most 2^53

  /** The decimal text of a non-negative integer. */
  function NatToString(n: nat): (s: string)
    ensures Canonical(s)
    ensures n >= 10 ==> s[0] != '0'
    decreases n
  {
    if n < 10 then [DigitChar(n)] else NatToString(n / 10) + [DigitChar(n % 10)]
  }

  /** The decimal text of an integer: a minus sign before the digits of
      its magnitude when it is negative. */
  function IntToString(i: int): (s: string)
    ensures |s| > 0
    ensures s[0] == '-' <==> i < 0
  {
    if i < 0 then "-" + NatToString(-i) else NatToString(i)
  }

  /** The value of a string of decimal digits (the empty string is 0). */
  function DigitsValue(s: string): nat
    requires AllDigits(s)
  {
    if s == [] then 0 else 10 * DigitsValue(s[..|s| - 1]) + DigitValue(s[|s| - 1])
  }

  /** Reading back the text of an integer: an optional minus sign and a
      canonical digit string, with "-0" refused since no integer prints so. */
  function ParseInt(s: string): Option<int>
  {
    if |s| > 0 && s[0] == '-' then
      if Canonical(s[1..]) && s[1..] != "0" then Some(0 - DigitsValue(s[1..]) as int) else None
    else if Canonical(s) then Some(DigitsValue(s))
    else None
  }

  lemma {:induction false} NatToStringRoundTrip(n: nat)
    ensures DigitsValue(NatToString(n)) == n
    decreases n
  {
    if n >= 10 {
      var s := NatToString(n);
      NatToStringRoundTrip(n / 10);
      assert s[..|s| - 1] == NatToString(n / 10);
    }
  }

  /** A digit string that starts with a non-zero digit has a positive value. */
  lemma {:induction false} LeadingDigitPositive(s: string)
    requires |s| > 0 && AllDigits(s) && s[0] != '0'
    ensures DigitsValue(s) > 0
    decreases |s|
  {
    if |s| > 1 {
      LeadingDigitPositive(s[..|s| - 1]);
    }
  }

  lemma {:induction false} CanonicalRoundTrip(s: string)
    requires Canonical(s)
    ensures NatToString(DigitsValue(s)) == s
    decreases |s|
  {
    if |s| > 1 {
      var t := s[..|s| - 1];
      LeadingDigitPositive(t);
      CanonicalRoundTrip(t);
      assert s == t + [s[|s| - 1]];
    }
  }

  /** Reading the text of any integer gives that integer back. */
  lemma IntToStringRoundTrip(i: int)
    ensures ParseInt(IntToString(i)) == Some(i)
  {
    if i < 0 {
      var s := IntToString(i);
      assert s[1..] == NatToString(-i);
      NatToStringRoundTrip(-i);
    } else {
      NatToStringRoundTrip(i);
    }
  }

  /** Everything ParseInt accepts is the text of the integer it returns,
      so distinct integers have distinct texts. */
  lemma ParseIntSound(s: string, i: int)
    requires ParseInt(s) == Some(i)
    ensures IntToString(i) == s
  {
    if |s| > 0 && s[0] == '-' {
      CanonicalRoundTrip(s[1..]);
      LeadingDigitPositive(s[1..]);
      assert s == "-" + s[1..];
    } else {
      CanonicalRoundTrip(s);
    }
  }

  lemma IntToStringInjective(i: int, j: int)
    requires IntToString(i) == IntToString(j)
    ensures i == j
  {
    IntToStringRoundTrip(i);
    IntToStringRoundTrip(j);
  }

  // ---------------------------------------------------------------------
  // Prefixes

  /** What follows `prefix` in `s`, if `s` starts with `prefix`. */
  function StripPrefix(prefix: string, s: string): (r: Option<string>)
    ensures r.Some? ==> s == prefix + r.value
    ensures r.None? ==> !(|prefix| <= |s| && s[..|prefix|] == prefix)
  {
    if |prefix| <= |s| && s[..|prefix|] == prefix then Some(s[|prefix|..]) else None
  }

  lemma StripPrefixConcat(prefix: string, rest: string)
    ensures StripPrefix(prefix, prefix + rest) == Some(rest)
  {
  }
}
