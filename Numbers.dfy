/** Decimal text and Python's int(), str() and float() on it, as far as the
    tariff pipeline uses them: `str(n)` of an integer spliced into the request
    document, `int(s)` and `float(s)` of provider text fields, and `int(x)` of a
    number, which truncates toward zero. */
module Numbers {
  import opened Wrappers

  predicate IsDigit(c: char) {
    '0' <= c <= '9'
  }

  predicate AllDigits(s: string) {
    forall i :: 0 <= i < |s| ==> IsDigit(s[i])
  }

  function DigitValue(c: char): (d: nat)
    requires IsDigit(c)
    ensures d < 10
  {
    (c as int) - ('0' as int)
  }

  function DigitChar(d: nat): (c: char)
    requires d < 10
    ensures IsDigit(c) && DigitValue(c) == d
  {
    (('0' as int) + d) as char
  }

  function Pow10(k: nat): (p: nat)
    ensures p >= 1
  {
    if k == 0 then 1 else 10 * Pow10(k - 1)
  }

  /** The number a string of decimal digits denotes (leading zeros allowed). */
  function DigitsValue(s: string): nat
    requires AllDigits(s)
  {
    if s == [] then 0 else DigitsValue(s[..|s| - 1]) * 10 + DigitValue(s[|s| - 1])
  }

  /** `str(n)` for a non-negative integer: its decimal digits. */
  function NatToString(n: nat): (s: string)
    ensures |s| > 0 && AllDigits(s)
    ensures |s| > 1 ==> s[0] != '0'
  {
    if n < 10 then [DigitChar(n)] else NatToString(n / 10) + [DigitChar(n % 10)]
  }

  /** `str(n)` for any integer, with a leading '-' when negative. */
  function IntToString(n: int): (s: string)
    ensures |s| > 0
    ensures s[0] == '-' <==> n < 0
  {
    if n < 0 then "-" + NatToString(-n) else NatToString(n)
  }

  function Signed(negative: bool, v: nat): int {
    if negative then -(v as int) else v
  }

  /** An optional sign: `(rest, negative)`. */
  function SplitSign(s: string): (string, bool)
  {
    if |s| > 0 && (s[0] == '-' || s[0] == '+') then (s[1..], s[0] == '-') else (s, false)
  }

  /** `int(s)` on an optionally signed run of decimal digits; None where
      Python raises ValueError. */
  function ParseInt(s: string): (r: Option<int>)
    ensures r.Some? ==> |s| > 0
  {
    var (digits, negative) := SplitSign(s);
    if |digits| > 0 && AllDigits(digits) then
      Some(Signed(negative, DigitsValue(digits)))
    else
      None
  }

  lemma {:induction false} NatToStringValue(n: nat)
    ensures DigitsValue(NatToString(n)) == n
  {
    var s := NatToString(n);
    if n >= 10 {
      var p := NatToString(n / 10);
      assert s[..|s| - 1] == p;
      NatToStringValue(n / 10);
    }
  }

  /** `int(str(n)) == n`: the text the request builder writes reads back as
      the same integer. */
  lemma IntToStringRoundTrip(n: int)
    ensures ParseInt(IntToString(n)) == Some(n)
  {
    var s := IntToString(n);
    if n < 0 {
      assert s[1..] == NatToString(-n);
      assert SplitSign(s) == (NatToString(-n), true);
      NatToStringValue(-n);
    } else {
      assert s[0] != '+' && s[0] != '-';
      assert SplitSign(s) == (NatToString(n), false);
      NatToStringValue(n);
    }
  }

  /** Python's `int(x)` on a number: truncation toward zero. */
  function Truncate(x: real): (r: int)
    ensures 0.0 <= x ==> 0.0 <= r as real <= x < r as real + 1.0
    ensures x < 0.0 ==> r as real - 1.0 < x <= r as real <= 0.0
  {
    if x >= 0.0 then x.Floor else -((-x).Floor)
  }

  /** A decimal numeral split into sign, integer digits and fraction digits. */
  datatype Numeral = Numeral(negative: bool, whole: string, fraction: string)

  /** The text before the first '.', and the text after it if there is one. */
  function SplitAtDot(s: string): (r: (string, Option<string>))
    ensures r.1.None? ==> r.0 == s
    ensures r.1.Some? ==> s == r.0 + "." + r.1.value && '.' !in r.0
  {
    if s == [] then ([], None)
    else if s[0] == '.' then ([], Some(s[1..]))
    else
      var rest := SplitAtDot(s[1..]);
      ([s[0]] + rest.0, rest.1)
  }

  /** The numerals `float()` is modelled on: an optional sign, digits, and an
      optional '.' followed by digits, with at least one digit in all. */
  function ParseNumeral(s: string): (r: Option<Numeral>)
    ensures r.Some? ==> AllDigits(r.value.whole) && AllDigits(r.value.fraction)
    ensures r.Some? ==> |r.value.whole| + |r.value.fraction| > 0
  {
    var (rest, negative) := SplitSign(s);
    var (whole, fraction) := SplitAtDot(rest);
    var frac := if fraction.Some? then fraction.value else [];
    if AllDigits(whole) && AllDigits(frac) && |whole| + |frac| > 0 then
      Some(Numeral(negative, whole, frac))
    else
      None
  }

  function FractionValue(f: string): real
    requires AllDigits(f)
  {
    DigitsValue(f) as real / Pow10(|f|) as real
  }

  function NumeralValue(n: Numeral): real
    requires AllDigits(n.whole) && AllDigits(n.fraction)
  {
    var magnitude := DigitsValue(n.whole) as real + FractionValue(n.fraction);
    if n.negative then -magnitude else magnitude
  }

  /** `float(s)`, taken as the exact value of the numeral; None where Python
      raises ValueError. */
  function ParseFloat(s: string): Option<real>
  {
    match ParseNumeral(s)
    case None => None
    case Some(n) => Some(NumeralValue(n))
  }

  lemma {:induction false} FractionBelowOne(f: string)
    requires AllDigits(f)
    ensures DigitsValue(f) < Pow10(|f|)
  {
    if f != [] {
      var g := f[..|f| - 1];
      FractionBelowOne(g);
      assert DigitsValue(f) == DigitsValue(g) * 10 + DigitValue(f[|f| - 1]);
    }
  }

  lemma QuotientBelowOne(d: nat, p: nat)
    requires d < p
    ensures 0.0 <= d as real / p as real < 1.0
  {
    var x := d as real / p as real;
    assert x * p as real == d as real;
  }

  lemma TruncateMagnitude(w: nat, q: real)
    requires 0.0 <= q < 1.0
    ensures Truncate(w as real + q) == w
    ensures Truncate(-(w as real + q)) == -(w as int)
  {
  }

  /** `int(x)` of a numeral's value keeps its integer digits and its sign:
      the fraction is dropped, never rounded. */
  lemma TruncateNumeral(n: Numeral)
    requires AllDigits(n.whole) && AllDigits(n.fraction)
    ensures Truncate(NumeralValue(n)) == Signed(n.negative, DigitsValue(n.whole))
  {
    FractionBelowOne(n.fraction);
    QuotientBelowOne(DigitsValue(n.fraction), Pow10(|n.fraction|));
    TruncateMagnitude(DigitsValue(n.whole), FractionValue(n.fraction));
  }
}
