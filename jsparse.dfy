/**
 * parseInt(s, 10) and parseFloat(s), the number parsers the client-side field
 * validators use, over exact reals.
 */
module JsParse {
  import opened JsText
  import opened JsMath

  /** A JavaScript number as the parsers can produce it. */
  datatype JsNumber = NaN | Finite(value: real) | Infinite(negative: bool)

  predicate IsDigit(c: char) {
    '0' <= c <= '9'
  }

  predicate AllDigits(s: string) {
    forall i | 0 <= i < |s| :: IsDigit(s[i])
  }

  /** Length of the run of decimal digits that s starts with. */
  function DigitRun(s: string): (n: nat)
    ensures n <= |s| && AllDigits(s[..n])
    ensures n == |s| || !IsDigit(s[n])
  {
    if s != [] && IsDigit(s[0]) then 1 + DigitRun(s[1..]) else 0
  }

  /** The value of a string of decimal digits, most significant first. */
  function DigitsValue(ds: string): nat
    requires AllDigits(ds)
  {
    if ds == [] then 0
    else DigitsValue(ds[..|ds| - 1]) * 10 + (ds[|ds| - 1] as int - '0' as int)
  }

  function Pow10(n: nat): (p: nat)
    ensures p >= 1
  {
    if n == 0 then 1 else 10 * Pow10(n - 1)
  }

  /** 10 raised to an integer power, as a real. */
  function Scale(e: int): (r: real)
    ensures r > 0.0
  {
    if e >= 0 then Pow10(e) as real else 1.0 / Pow10(-e) as real
  }

  /** A leading '+' or '-' taken off: whether it was '-', and the rest. */
  function SplitSign(s: string): (bool, string) {
    if s != [] && s[0] == '-' then (true, s[1..])
    else if s != [] && s[0] == '+' then (false, s[1..])
    else (false, s)
  }

  function Signed(negative: bool, v: real): real {
    if negative then -v else v
  }

  /** The value of the run of decimal digits that s starts with; NaN when there is none. */
  function ReadDigits(s: string): (r: JsNumber)
    ensures !r.Infinite?
    ensures r.Finite? ==> r.value >= 0.0
  {
    var n := DigitRun(s);
    if n == 0 then NaN else Finite(DigitsValue(s[..n]) as real)
  }

  /** Unary minus on a parsed number. */
  function Negate(x: JsNumber): JsNumber {
    match x
    case NaN => NaN
    case Finite(v) => Finite(-v)
    case Infinite(negative) => Infinite(!negative)
  }

  /**
   * parseInt(s, 10): leading whitespace skipped, one optional sign, then the
   * longest run of decimal digits; NaN when that run is empty.
   */
  function ParseInt(s: string): (r: JsNumber)
    ensures !r.Infinite?
  {
    var (negative, body) := SplitSign(TrimStart(s));
    if negative then Negate(ReadDigits(body)) else ReadDigits(body)
  }

  /**
   * The exponent of an ExponentPart starting at position m of s, or 0 when no
   * well-formed exponent part (e or E, optional sign, at least one digit) is there.
   */
  function ExponentAt(s: string, m: nat): int
    requires m <= |s|
  {
    if m < |s| && (s[m] == 'e' || s[m] == 'E') then
      var (negative, digits) := SplitSign(s[m + 1..]);
      var d := DigitRun(digits);
      if d == 0 then 0
      else if negative then -(DigitsValue(digits[..d]) as int) else DigitsValue(digits[..d])
    else 0
  }

  /** The value of the digits after a decimal point. */
  function FractionValue(ds: string): real
    requires AllDigits(ds)
  {
    DigitsValue(ds) as real / Pow10(|ds|) as real
  }

  /**
   * The value of the longest StrUnsignedDecimalLiteral other than Infinity
   * that s starts with: digits with an optional fraction and exponent, at least
   * one digit before or after the point; NaN when s starts with none.
   */
  function UnsignedDecimal(s: string): JsNumber {
    var intLen := DigitRun(s);
    var hasPoint := intLen < |s| && s[intLen] == '.';
    var fraction := if hasPoint then s[intLen + 1..][..DigitRun(s[intLen + 1..])] else "";
    if intLen == 0 && fraction == "" then NaN
    else
      var mantissa := DigitsValue(s[..intLen]) as real + FractionValue(fraction);
      var mantissaEnd := if hasPoint then intLen + 1 + |fraction| else intLen;
      Finite(mantissa * Scale(ExponentAt(s, mantissaEnd)))
  }

  /**
   * parseFloat(s): leading whitespace skipped, one optional sign, then
   * "Infinity" or the longest unsigned decimal literal; NaN when there is none.
   */
  function ParseFloat(s: string): (r: JsNumber)
  {
    var (negative, body) := SplitSign(TrimStart(s));
    if "Infinity" <= body then Infinite(negative)
    else match UnsignedDecimal(body)
      case NaN => NaN
      case Finite(v) => Finite(Signed(negative, v))
      case Infinite(_) => NaN
  }

  /** The decimal rendering of a natural number, as String(n) gives it. */
  function NatToString(n: nat): (s: string)
    ensures s != [] && AllDigits(s)
  {
    if n < 10 then ['0' + n as char]
    else NatToString(n / 10) + ['0' + (n % 10) as char]
  }

  lemma {:induction false} DigitsValueOfNatToString(n: nat)
    ensures DigitsValue(NatToString(n)) == n
  {
    if n >= 10 {
      var s := NatToString(n);
      DigitsValueOfNatToString(n / 10);
      assert s[..|s| - 1] == NatToString(n / 10);
    }
  }

  /** The digit run of a digit string followed by a non-digit is that digit string. */
  lemma {:induction false} DigitRunOfDigitsThen(ds: string, rest: string)
    requires AllDigits(ds)
    requires rest == [] || !IsDigit(rest[0])
    ensures DigitRun(ds + rest) == |ds|
  {
    if ds != [] {
      assert (ds + rest)[1..] == ds[1..] + rest;
      DigitRunOfDigitsThen(ds[1..], rest);
    }
  }

  /** A string that starts with a digit is left alone by TrimStart and SplitSign. */
  lemma StartsWithDigit(t: string)
    requires t != [] && IsDigit(t[0])
    ensures TrimStart(t) == t && SplitSign(t) == (false, t)
  {
  }

  /** After a minus sign, parseInt reads what it would read without it, negated. */
  lemma ParseIntAfterMinus(t: string)
    ensures ParseInt("-" + t) == Negate(ReadDigits(t))
  {
    var u := "-" + t;
    assert u[1..] == t;
    assert !IsJsWhitespace(u[0]);
    assert TrimStart(u) == u;
  }

  /** A digit string followed by a non-digit reads as its value. */
  lemma ReadDigitsOfDigits(ds: string, rest: string)
    requires ds != [] && AllDigits(ds)
    requires rest == [] || !IsDigit(rest[0])
    ensures ReadDigits(ds + rest) == Finite(DigitsValue(ds) as real)
  {
    DigitRunOfDigitsThen(ds, rest);
    assert (ds + rest)[..|ds|] == ds;
  }

  /** parseInt reads back the decimal rendering of every count, whatever non-digit text follows it. */
  lemma ParseIntOfNatToString(n: nat, rest: string)
    requires rest == [] || !IsDigit(rest[0])
    ensures ParseInt(NatToString(n) + rest) == Finite(n as real)
  {
    var ds := NatToString(n);
    ReadDigitsOfDigits(ds, rest);
    DigitsValueOfNatToString(n);
    StartsWithDigit(ds + rest);
  }

  /** parseInt reads back a minus sign and the decimal rendering of a count as its negation. */
  lemma ParseIntOfNegatedNatToString(n: nat, rest: string)
    requires rest == [] || !IsDigit(rest[0])
    ensures ParseInt("-" + NatToString(n) + rest) == Finite(-(n as real))
  {
    var ds := NatToString(n);
    var t := ds + rest;
    assert "-" + ds + rest == "-" + t;
    ReadDigitsOfDigits(ds, rest);
    DigitsValueOfNatToString(n);
    ParseIntAfterMinus(t);
  }

  /** A string starting with a digit is parsed by parseFloat as an unsigned decimal literal. */
  lemma ParseFloatOfDigitStart(t: string)
    requires t != [] && IsDigit(t[0])
    ensures ParseFloat(t) == UnsignedDecimal(t)
  {
    StartsWithDigit(t);
    assert !("Infinity" <= t) by {
      assert t[0] != 'I';
    }
  }

  lemma UnsignedDecimalOfDecimal(n: nat, ds: string)
    requires AllDigits(ds)
    ensures UnsignedDecimal(NatToString(n) + "." + ds) == Finite(n as real + FractionValue(ds))
  {
    var s := NatToString(n);
    var text := s + "." + ds;
    assert text == s + ("." + ds);
    DigitRunOfDigitsThen(s, "." + ds);
    assert DigitRun(text) == |s|;
    DigitsValueOfNatToString(n);
    assert text[..|s|] == s;
    assert text[|s|] == '.';
    assert text[|s| + 1..] == ds;
    DigitRunOfDigitsThen(ds, "");
    assert ds + "" == ds;
    assert DigitRun(ds) == |ds|;
    assert ds[..|ds|] == ds;
    assert ExponentAt(text, |text|) == 0;
    assert Scale(0) == 1.0;
  }

  /** parseFloat reads back "n.ds" for every count n and digit string ds. */
  lemma ParseFloatOfDecimal(n: nat, ds: string)
    requires AllDigits(ds)
    ensures ParseFloat(NatToString(n) + "." + ds) == Finite(n as real + FractionValue(ds))
  {
    var text := NatToString(n) + "." + ds;
    assert text[0] == NatToString(n)[0];
    ParseFloatOfDigitStart(text);
    UnsignedDecimalOfDecimal(n, ds);
  }

  lemma UnsignedDecimalOfNatToString(n: nat)
    ensures UnsignedDecimal(NatToString(n)) == Finite(n as real)
  {
    var s := NatToString(n);
    DigitRunOfDigitsThen(s, "");
    assert s + "" == s;
    DigitsValueOfNatToString(n);
    assert s[..|s|] == s;
    assert ExponentAt(s, |s|) == 0;
  }

  /** parseFloat reads back the decimal rendering of every natural number. */
  lemma ParseFloatOfNatToString(n: nat)
    ensures ParseFloat(NatToString(n)) == Finite(n as real)
  {
    ParseFloatOfDigitStart(NatToString(n));
    UnsignedDecimalOfNatToString(n);
  }
}
