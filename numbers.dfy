/**
 * Numbers written as text, as the two library formats store them: Python's `str(int)`,
 * the decimal subset of `int(...)` and `float(...)` that the importer meets in attribute
 * values, `int(x)` on a float (truncation toward zero), and the millisecond/second
 * conversions between Traktor, the neutral model and Rekordbox.
 */
module Numbers {
  import opened Wrappers
  import opened Text

  predicate IsDigit(c: char)
  {
    '0' <= c <= '9'
  }

  predicate AllDigits(s: string)
  {
    forall i :: 0 <= i < |s| ==> IsDigit(s[i])
  }

  function DigitValue(c: char): (d: nat)
    requires IsDigit(c)
    ensures d < 10
  {
    c as int - '0' as int
  }

  function DigitChar(d: nat): (c: char)
    requires d < 10
    ensures IsDigit(c) && DigitValue(c) == d
  {
    ('0' as int + d) as char
  }

  /** The value of a string of decimal digits, most significant first. */
  function DigitsValue(s: string): nat
    requires AllDigits(s)
  {
    if s == [] then 0 else 10 * DigitsValue(s[..|s| - 1]) + DigitValue(s[|s| - 1])
  }

  /** `str(n)` for a non-negative integer: no sign, no leading zero. */
  function NatToString(n: nat): (s: string)
    ensures |s| >= 1 && AllDigits(s)
    ensures |s| > 1 ==> s[0] != '0'
  {
    if n < 10 then [DigitChar(n)] else NatToString(n / 10) + [DigitChar(n % 10)]
  }

  lemma {:induction false} NatToStringValue(n: nat)
    ensures DigitsValue(NatToString(n)) == n
  {
    if n >= 10 {
      NatToStringValue(n / 10);
      var s := NatToString(n);
      assert s[..|s| - 1] == NatToString(n / 10);
    }
  }

  /** `str(n)`: a minus sign for negative values, then the decimal digits. */
  function IntToString(n: int): (s: string)
    ensures |s| >= 1
    ensures n >= 0 <==> IsDigit(s[0])
  {
    if n < 0 then "-" + NatToString(-n) else NatToString(n)
  }

  /** `int(s)` for an optional sign followed by one or more ASCII digits; anything else raises in the source and is `None` here. */
  function ParseInt(s: string): Option<int>
  {
    if |s| > 0 && (s[0] == '-' || s[0] == '+') then
      if |s| > 1 && AllDigits(s[1..]) then
        Some(if s[0] == '-' then -(DigitsValue(s[1..]) as int) else DigitsValue(s[1..]))
      else None
    else if |s| > 0 && AllDigits(s) then Some(DigitsValue(s))
    else None
  }

  /** Rendering an integer and reading it back gives the integer: `int(str(n)) == n`. */
  lemma IntToStringRoundTrip(n: int)
    ensures ParseInt(IntToString(n)) == Some(n)
  {
    if n < 0 {
      NegativeRoundTrip(n);
    } else {
      NatToStringValue(n);
      assert IsDigit(IntToString(n)[0]);
    }
  }

  lemma NegativeRoundTrip(n: int)
    requires n < 0
    ensures ParseInt(IntToString(n)) == Some(n)
  {
    var s, t := IntToString(n), NatToString(-n);
    NatToStringValue(-n);
    assert s == "-" + t;
    assert s[1..] == t;
    assert |s| > 1 && AllDigits(s[1..]) && DigitsValue(s[1..]) == -n;
  }

  function Pow10(k: nat): (p: nat)
    ensures p >= 1
  {
    if k == 0 then 1 else 10 * Pow10(k - 1)
  }

  /** The unsigned part of `float(s)`: digits, optionally a `.` and more digits, at least one digit in all. */
  function ParseUnsignedDecimal(body: string): Option<real>
  {
    match IndexOf(body, ".")
    case None =>
      if |body| > 0 && AllDigits(body) then Some(DigitsValue(body) as real) else None
    case Some(i) =>
      var whole, frac := body[..i], body[i + 1..];
      if |whole| + |frac| > 0 && AllDigits(whole) && AllDigits(frac) then
        Some(DigitsValue(whole) as real + DigitsValue(frac) as real / Pow10(|frac|) as real)
      else None
  }

  /** `float(s)` for an optional sign and a plain decimal numeral; anything else raises in the source and is `None` here. */
  function ParseFloat(s: string): (r: Option<real>)
  {
    var negative := |s| > 0 && s[0] == '-';
    var body := if |s| > 0 && (s[0] == '-' || s[0] == '+') then s[1..] else s;
    match ParseUnsignedDecimal(body)
    case None => None
    case Some(m) => Some(if negative then -m else m)
  }

  lemma NoDotInDigits(s: string)
    requires AllDigits(s)
    ensures IndexOf(s, ".") == None
  {
    forall j: nat | j + 1 <= |s|
      ensures !OccursAt(s, ".", j)
    {
      assert s[j..j + 1][0] == s[j];
    }
  }

  /** A whole number written by `str(int)` reads back through `float(...)` as the same value (e.g. a Traktor `START="12345"`). */
  lemma ParseFloatOfInt(n: int)
    ensures ParseFloat(IntToString(n)) == Some(n as real)
  {
    var s := IntToString(n);
    var m: nat := if n < 0 then -n else n;
    var digits := NatToString(m);
    NatToStringValue(m);
    NoDotInDigits(digits);
    if n < 0 {
      assert s[1..] == digits;
    } else {
      assert s == digits;
    }
  }

  /** `int(x)` on a float: truncation toward zero. */
  function Trunc(x: real): (n: int)
    ensures x >= 0.0 ==> 0 <= n && n as real <= x < n as real + 1.0
    ensures x < 0.0 ==> n <= 0 && n as real - 1.0 < x <= n as real
  {
    if x >= 0.0 then x.Floor else -((-x).Floor)
  }

  /** Traktor's milliseconds as the model's seconds (`value / 1000.0`). */
  function Seconds(ms: real): real
  {
    ms / 1000.0
  }

  /** The model's seconds as Rekordbox's whole milliseconds (`int(seconds * 1000)`). */
  function Millis(seconds: real): int
  {
    Trunc(seconds * 1000.0)
  }

  /** A whole number of milliseconds survives import and export unchanged. */
  lemma MillisRoundTrip(ms: int)
    ensures Millis(Seconds(ms as real)) == ms
  {
    assert Seconds(ms as real) * 1000.0 == ms as real;
  }
}
