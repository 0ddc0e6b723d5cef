/**
 * Character and decimal-number helpers: the parts of Python's `str`, `int`,
 * `isupper`, `lower` and `upper` that the chess code relies on: ASCII letters,
 * and the decimal digits of every script that `int` reads.
 */
module Text {
  import opened Wrappers

  predicate IsDigit(ch: char) {
    '0' <= ch <= '9'
  }

  function DigitChar(d: int): (ch: char)
    requires 0 <= d <= 9
    ensures IsDigit(ch) && ch as int - '0' as int == d
  {
    ('0' as int + d) as char
  }

  function DigitValue(ch: char): (d: int)
    requires IsDigit(ch)
    ensures 0 <= d <= 9 && DigitChar(d) == ch
  {
    ch as int - '0' as int
  }

  /** The number of runs of ten decimal digits that Python's `int` accepts as a one-character string. */
  const DecimalRuns := 68

  /**
   * The code point of the zero of the i-th such run (the Unicode 15.0 decimal
   * digits of Python 3.12), in increasing order; each run holds the digits 0
   * to 9 in order.
   */
  function DecimalZero(i: nat): int
    requires i < DecimalRuns
  {
    match i
      case 0 => 0x30
      case 1 => 0x660
      case 2 => 0x6F0
      case 3 => 0x7C0
      case 4 => 0x966
      case 5 => 0x9E6
      case 6 => 0xA66
      case 7 => 0xAE6
      case 8 => 0xB66
      case 9 => 0xBE6
      case 10 => 0xC66
      case 11 => 0xCE6
      case 12 => 0xD66
      case 13 => 0xDE6
      case 14 => 0xE50
      case 15 => 0xED0
      case 16 => 0xF20
      case 17 => 0x1040
      case 18 => 0x1090
      case 19 => 0x17E0
      case 20 => 0x1810
      case 21 => 0x1946
      case 22 => 0x19D0
      case 23 => 0x1A80
      case 24 => 0x1A90
      case 25 => 0x1B50
      case 26 => 0x1BB0
      case 27 => 0x1C40
      case 28 => 0x1C50
      case 29 => 0xA620
      case 30 => 0xA8D0
      case 31 => 0xA900
      case 32 => 0xA9D0
      case 33 => 0xA9F0
      case 34 => 0xAA50
      case 35 => 0xABF0
      case 36 => 0xFF10
      case 37 => 0x104A0
      case 38 => 0x10D30
      case 39 => 0x11066
      case 40 => 0x110F0
      case 41 => 0x11136
      case 42 => 0x111D0
      case 43 => 0x112F0
      case 44 => 0x11450
      case 45 => 0x114D0
      case 46 => 0x11650
      case 47 => 0x116C0
      case 48 => 0x11730
      case 49 => 0x118E0
      case 50 => 0x11950
      case 51 => 0x11C50
      case 52 => 0x11D50
      case 53 => 0x11DA0
      case 54 => 0x11F50
      case 55 => 0x16A60
      case 56 => 0x16AC0
      case 57 => 0x16B50
      case 58 => 0x1D7CE
      case 59 => 0x1D7D8
      case 60 => 0x1D7E2
      case 61 => 0x1D7EC
      case 62 => 0x1D7F6
      case 63 => 0x1E140
      case 64 => 0x1E2F0
      case 65 => 0x1E4F0
      case 66 => 0x1E950
      case _ => 0x1FBF0
  }

  /** Each run ends before the next one starts. */
  lemma DecimalRunsAdjacent(i: nat)
    requires i + 1 < DecimalRuns
    ensures DecimalZero(i) + 10 <= DecimalZero(i + 1)
  {
  }

  /** Steps of at least 10 between neighbours add up to at least 10 between any two of the first `n` values. */
  lemma {:induction false} StepsApart(f: nat -> int, n: nat, i: nat, j: nat)
    requires forall k: nat :: k + 1 < n ==> f(k) + 10 <= f(k + 1)
    requires i < j < n
    ensures f(i) + 10 <= f(j)
    decreases j - i
  {
    if i < j - 1 {
      StepsApart(f, n, i, j - 1);
    }
  }

  /** The runs are disjoint and in increasing order. */
  lemma DecimalRunsApart(i: nat, j: nat)
    requires i < j < DecimalRuns
    ensures DecimalZero(i) + 10 <= DecimalZero(j)
  {
    var f := (k: nat) => if k < DecimalRuns then DecimalZero(k) else 0;
    forall k: nat | k + 1 < DecimalRuns ensures f(k) + 10 <= f(k + 1) {
      DecimalRunsAdjacent(k);
    }
    StepsApart(f, DecimalRuns, i, j);
  }

  /** The value of `ch` when it lies in one of the runs from index `i` on: its place in that run. */
  function DecimalFrom(ch: char, i: nat): (r: Option<int>)
    requires i <= DecimalRuns
    ensures r.Some? ==> 0 <= r.value <= 9 && exists j :: i <= j < DecimalRuns && ch as int == DecimalZero(j) + r.value
    ensures r.None? ==> forall j :: i <= j < DecimalRuns ==> !(DecimalZero(j) <= ch as int < DecimalZero(j) + 10)
    ensures forall j :: i <= j < DecimalRuns && DecimalZero(j) <= ch as int < DecimalZero(j) + 10 ==>
      r == Some(ch as int - DecimalZero(j))
    decreases DecimalRuns - i
  {
    if i == DecimalRuns then None
    else if DecimalZero(i) <= ch as int < DecimalZero(i) + 10 then
      assert forall j :: i < j < DecimalRuns ==> DecimalZero(i) + 10 <= DecimalZero(j) by {
        forall j | i < j < DecimalRuns ensures DecimalZero(i) + 10 <= DecimalZero(j) {
          DecimalRunsApart(i, j);
        }
      }
      Some(ch as int - DecimalZero(i))
    else DecimalFrom(ch, i + 1)
  }

  /**
   * Python's `int(ch)` for a one-character string: the digit's value for a
   * decimal digit of any script, and nothing (a `ValueError`) otherwise.
   */
  function Decimal(ch: char): (r: Option<int>)
    ensures r.Some? ==> 0 <= r.value <= 9
    ensures r.Some? <==> exists j :: 0 <= j < DecimalRuns && DecimalZero(j) <= ch as int < DecimalZero(j) + 10
    ensures IsDigit(ch) ==> r == Some(DigitValue(ch))
    ensures forall j :: 0 <= j < DecimalRuns && DecimalZero(j) <= ch as int < DecimalZero(j) + 10 ==>
      r == Some(ch as int - DecimalZero(j))
  {
    DecimalFrom(ch, 0)
  }

  /** The ARABIC-INDIC and DEVANAGARI digits two and four read as 2 and 4, as `int` reads them. */
  lemma NonAsciiDigits()
    ensures Decimal('\U{0662}') == Some(2) && Decimal('\U{096A}') == Some(4)
  {
  }

  predicate IsDecimal(ch: char) {
    Decimal(ch).Some?
  }

  predicate AllDigits(s: string) {
    forall i :: 0 <= i < |s| ==> IsDigit(s[i])
  }

  /** Python's `str(n)` for a non-negative integer: most significant digit first, no leading zeros. */
  function NatToString(n: nat): (s: string)
    ensures 1 <= |s| && AllDigits(s)
    ensures n < 10 <==> |s| == 1
    ensures |s| > 1 ==> s[0] != '0'
    decreases n
  {
    if n < 10 then [DigitChar(n)] else NatToString(n / 10) + [DigitChar(n % 10)]
  }

  /** Python's `str(n)` for any integer. */
  function IntToString(n: int): (s: string)
    ensures 1 <= |s|
    ensures n >= 0 ==> AllDigits(s)
    ensures n < 0 ==> s[0] == '-' && AllDigits(s[1..])
    ensures n >= 0 ==> ParseNat(s) == n
    ensures n < 0 ==> ParseNat(s[1..]) == -n
  {
    if n < 0 then
      NatToStringRoundTrip(-n);
      assert ("-" + NatToString(-n))[1..] == NatToString(-n);
      "-" + NatToString(-n)
    else
      NatToStringRoundTrip(n);
      NatToString(n)
  }

  /** Reads a run of decimal digits back as a number (Python's `int` on a digit string). */
  function ParseNat(s: string): nat
    requires AllDigits(s)
  {
    if s == [] then 0 else ParseNat(s[..|s| - 1]) * 10 + DigitValue(s[|s| - 1])
  }

  /** Printing a natural number and reading it back gives the number again. */
  lemma {:induction false} NatToStringRoundTrip(n: nat)
    ensures ParseNat(NatToString(n)) == n
    decreases n
  {
    if n >= 10 {
      var s := NatToString(n);
      NatToStringRoundTrip(n / 10);
      assert s[..|s| - 1] == NatToString(n / 10);
    }
  }

  /** Printing is injective on natural numbers: different numbers never share a decimal text. */
  lemma NatToStringInjective(m: nat, n: nat)
    requires NatToString(m) == NatToString(n)
    ensures m == n
  {
    NatToStringRoundTrip(m);
    NatToStringRoundTrip(n);
  }

  predicate IsUpper(ch: char) {
    'A' <= ch <= 'Z'
  }

  predicate IsLower(ch: char) {
    'a' <= ch <= 'z'
  }

  /** ASCII `str.lower` on one character. */
  function Lower(ch: char): (r: char)
    ensures !IsUpper(r)
    ensures IsUpper(ch) ==> IsLower(r) && r as int == ch as int + 32
    ensures !IsUpper(ch) ==> r == ch
  {
    if IsUpper(ch) then (ch as int + 32) as char else ch
  }

  /** ASCII `str.upper` on one character. */
  function Upper(ch: char): (r: char)
    ensures !IsLower(r)
    ensures IsLower(ch) ==> IsUpper(r) && r as int == ch as int - 32
    ensures !IsLower(ch) ==> r == ch
  {
    if IsLower(ch) then (ch as int - 32) as char else ch
  }
}
