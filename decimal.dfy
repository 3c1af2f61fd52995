/**
 * `Number(x).toFixed(2)` on an exact decimal. JavaScript picks the integer
 * count of hundredths closest to |x| * 100, the larger one on a tie, and
 * prints it with a leading "-" when x is negative, the whole part without
 * leading zeros, a point, and exactly two fractional digits.
 */
module Decimal {

  predicate IsDigit(c: char) {
    '0' <= c <= '9'
  }

  predicate AllDigits(s: string) {
    forall i :: 0 <= i < |s| ==> IsDigit(s[i])
  }

  function DigitChar(d: nat): (c: char)
    requires d < 10
    ensures IsDigit(c) && c as int - '0' as int == d
  {
    ('0' as int + d) as char
  }

  function DigitValue(c: char): (d: nat)
    requires IsDigit(c)
    ensures d < 10 && DigitChar(d) == c
  {
    c as int - '0' as int
  }

  /** The decimal numeral of n, most significant digit first. */
  function Digits(n: nat): (s: string)
    ensures 1 <= |s| && AllDigits(s)
    ensures s[0] == '0' <==> n == 0
    decreases n
  {
    if n < 10 then [DigitChar(n)] else Digits(n / 10) + [DigitChar(n % 10)]
  }

  /** The number a string of digits denotes. */
  function DigitsValue(s: string): nat
    requires AllDigits(s)
    decreases |s|
  {
    if s == [] then 0 else 10 * DigitsValue(s[..|s| - 1]) + DigitValue(s[|s| - 1])
  }

  /** Reading back a numeral gives the number it was printed from. */
  lemma {:induction false} DigitsValueOfDigits(n: nat)
    ensures DigitsValue(Digits(n)) == n
    decreases n
  {
    if n >= 10 {
      var s := Digits(n);
      assert s[..|s| - 1] == Digits(n / 10);
      DigitsValueOfDigits(n / 10);
    }
  }

  /** The integer nearest to y, the larger one on a tie. */
  function RoundHalfUp(y: real): (n: int)
    ensures n as real - 0.5 <= y < n as real + 0.5
    ensures y >= 0.0 ==> n >= 0
  {
    (y + 0.5).Floor
  }

  /** The signed count of hundredths `toFixed(2)` prints for x. */
  function Hundredths(x: real): (h: int)
    ensures -0.5 <= x * 100.0 - h as real <= 0.5
    // a tie is resolved away from zero
    ensures x >= 0.0 ==> h >= 0 && x * 100.0 - h as real < 0.5
    ensures x < 0.0 ==> h <= 0 && x * 100.0 - h as real > -0.5
  {
    if x < 0.0 then -RoundHalfUp(-x * 100.0) else RoundHalfUp(x * 100.0)
  }

  /** The nearest-with-ties-away-from-zero conditions determine the count of hundredths. */
  lemma HundredthsUnique(x: real, k: int)
    requires -0.5 <= x * 100.0 - k as real <= 0.5
    requires x >= 0.0 ==> x * 100.0 - k as real < 0.5
    requires x < 0.0 ==> x * 100.0 - k as real > -0.5
    ensures k == Hundredths(x)
  {
  }

  /** Strips one leading minus sign. */
  function Unsigned(s: string): string {
    if 0 < |s| && s[0] == '-' then s[1..] else s
  }

  /** An optional "-", one or more digits, a point, and exactly two digits. */
  predicate IsFixed2(s: string) {
    var t := Unsigned(s);
    4 <= |t| && t[|t| - 3] == '.' && AllDigits(t[..|t| - 3]) && AllDigits(t[|t| - 2..])
  }

  /** The signed count of hundredths a string of that shape denotes. */
  function Fixed2Value(s: string): int
    requires IsFixed2(s)
  {
    var t := Unsigned(s);
    var m := 100 * DigitsValue(t[..|t| - 3]) + DigitsValue(t[|t| - 2..]);
    if t == s then m else -m
  }

  /** The two fractional digits of a count of hundredths. */
  function Cents(m: nat): (s: string)
    ensures |s| == 2 && AllDigits(s) && DigitsValue(s) == m % 100
  {
    var s := [DigitChar(m % 100 / 10), DigitChar(m % 10)];
    assert s[..1] == [s[0]] && s[..1][..0] == [];
    assert DigitsValue(s[..1]) == m % 100 / 10;
    assert m % 100 == 10 * (m % 100 / 10) + m % 10;
    s
  }

  /** The unsigned numeral of m hundredths, with and without a minus sign, reads back as ±m. */
  lemma NumeralOfHundredths(m: nat)
    ensures var t := Digits(m / 100) + "." + Cents(m);
            IsFixed2(t) && Fixed2Value(t) == m && IsFixed2("-" + t) && Fixed2Value("-" + t) == -(m as int) &&
            Unsigned(t) == t && Unsigned("-" + t) == t && (t[0] == '0' ==> t[1] == '.')
  {
    var whole := Digits(m / 100);
    var t := whole + "." + Cents(m);
    DigitsValueOfDigits(m / 100);
    assert Unsigned(t) == t;
    assert Unsigned("-" + t) == t;
    assert t[..|t| - 3] == whole && t[|t| - 2..] == Cents(m);
    if t[0] == '0' {
      assert whole[0] == '0' && m / 100 == 0 && whole == "0";
    }
  }

  /** `Number(x).toFixed(2)`. */
  function Fixed2(x: real): (s: string)
    ensures IsFixed2(s) && Fixed2Value(s) == Hundredths(x)
    ensures 0 < |s| && (s[0] == '-' <==> x < 0.0)
    // no leading zero in the whole part
    ensures Unsigned(s)[0] == '0' ==> Unsigned(s)[1] == '.'
  {
    var m := if x < 0.0 then -Hundredths(x) else Hundredths(x);
    var t := Digits(m / 100) + "." + Cents(m);
    NumeralOfHundredths(m);
    if x < 0.0 then "-" + t else t
  }

  /** A zero amount prints as "0.00". */
  lemma Fixed2OfZero()
    ensures Fixed2(0.0) == "0.00"
  {
    assert Digits(0) == "0";
  }

  /** A whole amount prints as its numeral followed by ".00". */
  lemma Fixed2OfWhole(n: nat)
    ensures Fixed2(n as real) == Digits(n) + ".00"
  {
    var m := 100 * n;
    HundredthsUnique(n as real, m);
    assert m / 100 == n && m % 100 == 0 && m % 10 == 0;
    assert Cents(m) == "00";
  }

  /** The amounts of the whole-kilometre, whole-euro example ride. */
  lemma Fixed2OfTwelveAndFifteen()
    ensures Fixed2(12.0) == "12.00" && Fixed2(15.0) == "15.00"
  {
    Fixed2OfWhole(12);
    Fixed2OfWhole(15);
    assert Digits(12) == "12" && Digits(15) == "15";
  }
}
